/**
 * The note tools of the planning agent: the module-level dictionary `memory`,
 * `save_note`, which files a note under the next id, and `get_notes`, which
 * lists the notes in the order they were saved.
 *
 * A Python dict is modelled as its items in insertion order, the order in which
 * `dict.items()` yields them; assigning to a key that is already present keeps
 * the key's position and replaces its value.
 */
module Notes {
  import opened Wrappers
  import opened Decimal

  const NO_NOTES := "No notes saved yet."

  /** `d.get(k)` on a dict given as its items. */
  function Lookup<K(==), V>(d: seq<(K, V)>, k: K): Option<V> {
    if d == [] then None
    else if d[0].0 == k then Some(d[0].1)
    else Lookup(d[1..], k)
  }

  /** `d[k] = v` on a dict given as its items. */
  function Assign<K(==), V>(d: seq<(K, V)>, k: K, v: V): seq<(K, V)> {
    if d == [] then [(k, v)]
    else if d[0].0 == k then [(k, v)] + d[1..]
    else [d[0]] + Assign(d[1..], k, v)
  }

  lemma {:induction false} AssignThenLookup<K, V>(d: seq<(K, V)>, k: K, v: V, k': K)
    ensures Lookup(Assign(d, k, v), k') == if k' == k then Some(v) else Lookup(d, k')
  {
    if d != [] && d[0].0 != k {
      AssignThenLookup(d[1..], k, v, k');
    }
  }

  lemma {:induction false} AssignAbsentAppends<K, V>(d: seq<(K, V)>, k: K, v: V)
    requires Lookup(d, k) == None
    ensures Assign(d, k, v) == d + [(k, v)]
  {
    if d != [] {
      AssignAbsentAppends(d[1..], k, v);
      assert [d[0]] + (d[1..] + [(k, v)]) == d + [(k, v)];
    }
  }

  /** The ids of `memory`, in insertion order, are exactly 1, 2, ..., len(memory). */
  ghost predicate IdsAreSequential(d: seq<(nat, string)>) {
    forall i :: 0 <= i < |d| ==> d[i].0 == i + 1
  }

  /** Ids counting up by one from `start`, as in a tail of `memory`. */
  ghost predicate IdsFrom(d: seq<(nat, string)>, start: nat) {
    forall i :: 0 <= i < |d| ==> d[i].0 == start + i
  }

  lemma {:induction false} LookupIdsFrom(d: seq<(nat, string)>, start: nat, id: nat)
    requires IdsFrom(d, start)
    ensures Lookup(d, id) == if start <= id < start + |d| then Some(d[id - start].1) else None
  {
    if d != [] && id != start {
      LookupIdsFrom(d[1..], start + 1, id);
    }
  }

  lemma LookupSequential(d: seq<(nat, string)>, id: nat)
    requires IdsAreSequential(d)
    ensures Lookup(d, id) == if 1 <= id <= |d| then Some(d[id - 1].1) else None
  {
    LookupIdsFrom(d, 1, id);
  }

  /** The reply of `save_note`. */
  function SavedReply(id: nat, note: string): string {
    "Saved note #" + NatToString(id) + ": " + note
  }

  /** The line `get_notes` shows for one note. */
  function NoteLine(entry: (nat, string)): string {
    "#" + NatToString(entry.0) + ": " + entry.1
  }

  function NoteLines(d: seq<(nat, string)>): seq<string> {
    seq(|d|, i requires 0 <= i < |d| => NoteLine(d[i]))
  }

  /** Python's `sep.join(parts)`. */
  function Join(parts: seq<string>, sep: string): string {
    if |parts| == 0 then ""
    else if |parts| == 1 then parts[0]
    else Join(parts[..|parts| - 1], sep) + sep + parts[|parts| - 1]
  }

  lemma {:induction false} JoinStartsWithFirst(parts: seq<string>, sep: string)
    requires |parts| > 0
    ensures parts[0] <= Join(parts, sep)
  {
    if |parts| > 1 {
      JoinStartsWithFirst(parts[..|parts| - 1], sep);
    }
  }

  /** What `get_notes` returns for the dict `d`. */
  function RenderNotes(d: seq<(nat, string)>): (listing: string)
    ensures d == [] ==> listing == NO_NOTES
    ensures d != [] ==> NoteLine(d[0]) <= listing
  {
    if d == [] then NO_NOTES
    else
      JoinStartsWithFirst(NoteLines(d), "\n");
      Join(NoteLines(d), "\n")
  }

  /** The "no notes" message is returned exactly when nothing has been saved. */
  lemma RenderNotesEmptyIff(d: seq<(nat, string)>)
    ensures RenderNotes(d) == NO_NOTES <==> d == []
  {
  }

  /** Saving one more note appends exactly its line to the listing. */
  lemma RenderNotesAppend(d: seq<(nat, string)>, e: (nat, string))
    ensures RenderNotes(d + [e]) == if d == [] then NoteLine(e) else RenderNotes(d) + "\n" + NoteLine(e)
  {
    var lines := NoteLines(d + [e]);
    assert lines[..|d|] == NoteLines(d);
  }

  /** Under the invariant, the i-th entry joined into the listing is `#<i+1>: <i-th note saved>`. */
  lemma SequentialLines(d: seq<(nat, string)>, i: nat)
    requires IdsAreSequential(d) && i < |d|
    ensures NoteLines(d)[i] == "#" + NatToString(i + 1) + ": " + d[i].1
  {
  }

  /** A reply of `save_note` names the id and the note it saved unambiguously. */
  lemma SavedReplyInjective(id1: nat, note1: string, id2: nat, note2: string)
    requires SavedReply(id1, note1) == SavedReply(id2, note2)
    ensures id1 == id2 && note1 == note2
  {
    TaggedInjective("Saved note #", ": ", id1, note1, id2, note2);
  }

  /** A line of `get_notes` names its id and its note unambiguously. */
  lemma NoteLineInjective(e1: (nat, string), e2: (nat, string))
    requires NoteLine(e1) == NoteLine(e2)
    ensures e1 == e2
  {
    TaggedInjective("#", ": ", e1.0, e1.1, e2.0, e2.1);
  }

  /**
   * Saving under id len(memory)+1 never touches an earlier note: every id that
   * was present keeps its note, the new id holds the new note, and the dict
   * grows by exactly one entry.
   */
  lemma SaveNeverOverwrites(d: seq<(nat, string)>, note: string, id: nat)
    requires IdsAreSequential(d)
    ensures |Assign<nat, string>(d, |d| + 1, note)| == |d| + 1
    ensures IdsAreSequential(Assign<nat, string>(d, |d| + 1, note))
    ensures Lookup(Assign<nat, string>(d, |d| + 1, note), id) ==
              if id == |d| + 1 then Some(note) else Lookup(d, id)
  {
    LookupSequential(d, |d| + 1);
    AssignAbsentAppends<nat, string>(d, |d| + 1, note);
    AssignThenLookup<nat, string>(d, |d| + 1, note, id);
  }

  /** The module-level `memory` dict shared by the planning agents of a process. */
  class NoteMemory {
    var memory: seq<(nat, string)>

    ghost predicate Valid()
      reads this
    {
      IdsAreSequential(memory)
    }

    constructor ()
      ensures Valid() && memory == []
    {
      memory := [];
    }

    /** `save_note`: stores the note under id len(memory)+1 and confirms it. */
    method SaveNote(note: string) returns (reply: string)
      requires Valid()
      modifies this
      ensures Valid()
      ensures memory == old(memory) + [(|old(memory)| + 1, note)]
      ensures reply == SavedReply(|old(memory)| + 1, note)
    {
      var noteId := |memory| + 1;
      LookupSequential(memory, noteId);
      AssignAbsentAppends<nat, string>(memory, noteId, note);
      memory := Assign<nat, string>(memory, noteId, note);
      reply := SavedReply(noteId, note);
    }

    /** `get_notes`: the fixed message when empty, otherwise one line per note. */
    function GetNotes(): (listing: string)
      reads this
      ensures listing == NO_NOTES <==> memory == []
    {
      RenderNotesEmptyIff(memory);
      RenderNotes(memory)
    }
  }

  /** Two notes saved into a fresh memory are listed as `#1` then `#2`. */
  method FirstTwoNotes(first: string, second: string) returns (reply1: string, reply2: string, listing: string)
    ensures reply1 == "Saved note #1: " + first
    ensures reply2 == "Saved note #2: " + second
    ensures listing == "#1: " + first + "\n" + "#2: " + second
  {
    var notes := new NoteMemory();
    reply1 := notes.SaveNote(first);
    reply2 := notes.SaveNote(second);
    listing := notes.GetNotes();
    RenderNotesAppend([], (1, first));
    RenderNotesAppend([(1, first)], (2, second));
    assert [] + [(1, first)] == [(1, first)];
  }
}
