/**
 The reference note table and the closest-note lookup (findClosestNote in js/main.js).

 The table is the list of (note, frequency) entries loaded once at start-up,
 strictly ascending by frequency.  The lookup is a binary search on l and r;
 an exact hit returns that entry, otherwise the loop ends with r = l - 1
 bracketing the frequency and the nearer of notes[r] and notes[l] is
 returned, a tie going to notes[l].  The final reads notes[r] and notes[l]
 exist only when the frequency lies within the table's range, so that range
 is a precondition.
 */
module NoteTable {

  /** One entry of the reference table. */
  datatype NoteEntry = NoteEntry(note: string, frequency: real)

  /** The table is sorted by frequency with no repeated frequency. */
  ghost predicate StrictlyAscending(notes: seq<NoteEntry>) {
    forall i, j :: 0 <= i < j < |notes| ==> notes[i].frequency < notes[j].frequency
  }

  /** freq lies between the first and the last entry, so the lookup stays in bounds. */
  ghost predicate InRange(notes: seq<NoteEntry>, freq: real) {
    |notes| > 0 && notes[0].frequency <= freq <= notes[|notes| - 1].frequency
  }

  /** |a - b|, as Math.abs(a - b). */
  function Distance(a: real, b: real): real {
    if a >= b then a - b else b - a
  }

  /** e is an entry of the table nearest to freq, and every entry of higher frequency is
      strictly farther: of two equally near entries, the higher one is chosen. */
  ghost predicate IsClosest(notes: seq<NoteEntry>, freq: real, e: NoteEntry) {
    && e in notes
    && (forall j :: 0 <= j < |notes| ==>
          Distance(e.frequency, freq) <= Distance(notes[j].frequency, freq))
    && (forall j :: 0 <= j < |notes| && notes[j].frequency > e.frequency ==>
          Distance(e.frequency, freq) < Distance(notes[j].frequency, freq))
  }

  /** findClosestNote: binary search for freq, then the nearer of the two bracketing entries. */
  method FindClosestNote(freq: real, notes: seq<NoteEntry>) returns (closest: NoteEntry)
    requires StrictlyAscending(notes) && InRange(notes, freq)
    ensures IsClosest(notes, freq, closest)
  {
    var l, r := 0, |notes| - 1;
    while l <= r
      invariant 0 <= l <= r + 1 <= |notes|
      invariant forall i :: 0 <= i < l ==> notes[i].frequency < freq
      invariant forall i :: r < i < |notes| ==> notes[i].frequency > freq
      decreases r - l
    {
      var m := (l + r) / 2;
      if notes[m].frequency < freq {
        l := m + 1;
      } else if notes[m].frequency > freq {
        r := m - 1;
      } else {
        return notes[m];
      }
    }
    // Here r == l - 1 and notes[r].frequency < freq < notes[l].frequency.
    if Distance(notes[r].frequency, freq) < Distance(notes[l].frequency, freq) {
      closest := notes[r];
    } else {
      closest := notes[l];
    }
  }

  /** In a strictly ascending table the closest entry, with its tie rule, is unique:
      the lookup's result is determined by the table and the frequency. */
  lemma ClosestIsUnique(notes: seq<NoteEntry>, freq: real, e1: NoteEntry, e2: NoteEntry)
    requires StrictlyAscending(notes)
    requires IsClosest(notes, freq, e1) && IsClosest(notes, freq, e2)
    ensures e1 == e2
  {
    var i :| 0 <= i < |notes| && notes[i] == e1;
    var j :| 0 <= j < |notes| && notes[j] == e2;
    assert Distance(e1.frequency, freq) <= Distance(notes[j].frequency, freq);
    assert Distance(e2.frequency, freq) <= Distance(notes[i].frequency, freq);
    assert i == j;
  }

  /** On an exact hit the closest entry is the one with that frequency. */
  lemma ExactHitIsClosest(notes: seq<NoteEntry>, freq: real, k: nat)
    requires StrictlyAscending(notes) && k < |notes| && notes[k].frequency == freq
    ensures IsClosest(notes, freq, notes[k])
    ensures forall e :: IsClosest(notes, freq, e) ==> e == notes[k]
  {
    forall e | IsClosest(notes, freq, e)
      ensures e == notes[k]
    {
      ClosestIsUnique(notes, freq, e, notes[k]);
    }
  }
}
