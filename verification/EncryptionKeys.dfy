/**
 The key-list side of the rotation: the loop that verifies node annotations, Go's append-based right
 rotation of a slice, and what full rotation cycles do to a key list.
 */
module EncryptionKeys {
  import opened EncryptionProtocol
  import opened Wrappers

  // ---------- verifyEncryptionHashAnnotation ----------

  datatype Verdict = Accepted | HashMismatch | MissingAnnotation | IncorrectStage | InvalidHash

  predicate NotesAgree(notes: seq<Option<Note>>) {
    forall i, j | 0 <= i < |notes| && 0 <= j < |notes| && notes[i].Some? && notes[j].Some? :: notes[i] == notes[j]
  }

  /**
   `notes` are the annotations of all control-plane nodes and `own` that of the local node; nodes
   without an annotation are skipped.  No expected stages means that only agreement is checked.
   */
  method VerifyHashAnnotation(notes: seq<Option<Note>>, own: Option<Note>, disk: seq<Key>,
                              stages: Option<set<Stage>>) returns (v: Verdict)
    ensures v == HashMismatch <==> !NotesAgree(notes)
    ensures v == Accepted <==>
            NotesAgree(notes) &&
            (stages.Some? ==> own.Some? && own.value.stage in stages.value && own.value.keys == disk)
    ensures v == MissingAnnotation <==> NotesAgree(notes) && stages.Some? && own.None?
    ensures v == IncorrectStage <==> NotesAgree(notes) && stages.Some? && own.Some? && own.value.stage !in stages.value
  {
    var first := true;
    var firstNote: Option<Note> := None;
    for i := 0 to |notes|
      invariant first <==> firstNote.None?
      invariant forall j | 0 <= j < i && notes[j].Some? :: notes[j] == firstNote
      invariant firstNote.Some? ==> exists j :: 0 <= j < i && notes[j] == firstNote
    {
      if notes[i].Some? && first {
        firstNote := notes[i];
        first := false;
      } else if notes[i].Some? && notes[i] != firstNote {
        return HashMismatch;
      }
    }
    if stages.None? {
      return Accepted;
    }
    if own.None? {
      return MissingAnnotation;
    }
    if own.value.stage !in stages.value {
      return IncorrectStage;
    } else if own.value.keys != disk {
      return InvalidHash;
    }
    return Accepted;
  }

  /** With an annotation on every node, agreement of the listed notes is the protocol's guard. */
  lemma AgreementIsTheGuard(st: State, order: seq<ServerId>, who: ServerId, stages: set<Stage>)
    requires who in st.servers && forall t :: t in order <==> t in st.servers
    ensures var notes := seq(|order|, i requires 0 <= i < |order| => Some(st.servers[order[i]].note));
            StageVerified(st, who, stages) <==>
            && NotesAgree(notes)
            && st.servers[who].note.stage in stages && st.servers[who].note.keys == st.servers[who].disk
  {
    var notes := seq(|order|, i requires 0 <= i < |order| => Some(st.servers[order[i]].note));
    if NotesAgree(notes) {
      var w :| 0 <= w < |order| && order[w] == who;
      forall t | t in st.servers
        ensures st.servers[t].note == st.servers[who].note
      {
        var i :| 0 <= i < |order| && order[i] == t;
        assert notes[i] == notes[w];
      }
    }
  }

  // ---------- append(curKeys[len(curKeys)-1:], curKeys[:len(curKeys)-1]...) ----------

  /**
   The slice holds the first `n` elements of its backing array.  When the capacity left behind the
   last element suffices, append copies into the backing array itself, element by element; otherwise
   it allocates an array of some larger capacity `grown`.  The rotated slice is `out[off..off + n]`.
   */
  method RotateSlice(backing: array<Key>, n: nat, grown: nat) returns (out: array<Key>, off: nat)
    requires 0 < n <= backing.Length && n <= grown
    modifies backing
    ensures off + n <= out.Length && out[off..off + n] == RightRotated(old(backing[..n]))
    ensures backing[..n] == old(backing[..n])
    ensures if backing.Length >= 2 * n - 1 then out == backing && off == n - 1 else fresh(out) && off == 0
  {
    ghost var was := backing[..n];
    if backing.Length - (n - 1) >= n {
      for i := 0 to n - 1
        invariant backing[..n] == was
        invariant forall j | 0 <= j < i :: backing[n + j] == was[j]
      {
        backing[n + i] := backing[i];
      }
      out, off := backing, n - 1;
    } else {
      out, off := new Key[grown], 0;
      out[0] := backing[n - 1];
      for i := 0 to n - 1
        invariant out[0] == was[n - 1]
        invariant forall j | 0 <= j < i :: out[1 + j] == was[j]
        invariant backing[..n] == was
      {
        out[1 + i] := backing[i];
      }
    }
    assert out[off] == was[n - 1];
    assert forall j | 0 <= j < n - 1 :: out[off..off + n][1 + j] == was[j];
  }

  // ---------- rotate_keys, and whole cycles ----------

  /** addAndRotateKeys: the list written first, and the list left on disk. */
  function AddAndRotate(keys: seq<Key>, k: Key): (lists: (seq<Key>, seq<Key>))
    ensures lists.0 == keys + [k] && lists.1 == [k] + keys
  {
    var added := keys + [k];
    assert added[..|added| - 1] == keys;
    (added, RightRotated(added))
  }

  /** The list after prepare, rotate and reencrypt, through the protocol's own three list changes. */
  function StagedCycle(keys: seq<Key>, k: Key): seq<Key> {
    DropLast(RightRotated(keys + [k]))
  }

  function Cycles(keys: seq<Key>, newKeys: seq<Key>): seq<Key>
    decreases |newKeys|
  {
    if newKeys == [] then keys else Cycles(StagedCycle(keys, newKeys[0]), newKeys[1..])
  }

  function Reversed(keys: seq<Key>): (r: seq<Key>)
    ensures |r| == |keys|
  {
    if keys == [] then [] else Reversed(keys[1..]) + [keys[0]]
  }

  /** rotate_keys followed by its key removal ends with the list of the three-stage rotation. */
  lemma RotateKeysMatchesStages(keys: seq<Key>, k: Key)
    ensures DropLast(AddAndRotate(keys, k).1) == StagedCycle(keys, k)
    ensures StagedCycle(keys, k) == ([k] + keys)[..|keys|]
  {
    assert RightRotated(keys + [k]) == [k] + keys;
  }

  /**
   Any number of cycles keeps the key count, leaves the newest keys first, and after as many cycles
   as there were keys none of the original ones is left.
   */
  lemma {:induction false} CyclesKeepNewest(keys: seq<Key>, newKeys: seq<Key>)
    ensures Cycles(keys, newKeys) == (Reversed(newKeys) + keys)[..|keys|]
    ensures |Cycles(keys, newKeys)| == |keys|
    ensures |newKeys| == |keys| ==> Cycles(keys, newKeys) == Reversed(newKeys)
    decreases |newKeys|
  {
    if newKeys == [] {
      assert keys[..|keys|] == keys;
    } else {
      var k, rest := newKeys[0], newKeys[1..];
      RotateKeysMatchesStages(keys, k);
      CyclesKeepNewest(StagedCycle(keys, k), rest);
      assert Reversed(newKeys) + keys == Reversed(rest) + ([k] + keys);
      assert (Reversed(rest) + ([k] + keys)[..|keys|])[..|keys|] == (Reversed(rest) + ([k] + keys))[..|keys|];
    }
  }
}
