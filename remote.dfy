/** utils/app/remote.ts: reconciling the local records with the remote ones
    (`mergeData`), and the two input guards `toArray` and `parse`. */
module Remote {
  import opened Wrappers
  import opened Json

  /** An element of a records array: a record with its `id`, or a null or
      undefined slot, reading whose `id` throws. */
  datatype Entry<P> = Null | Item(id: string, payload: P)

  /** The outcome of `findIndex` with an `id` test. */
  datatype Search = Found(index: nat) | Absent | Threw

  /** `records.findIndex(r => r.id === id)`: the first record with that id,
      scanning from the front; reaching a null slot first throws. */
  function FindIndex<P>(records: seq<Entry<P>>, id: string): (r: Search)
    ensures r.Found? ==> r.index < |records| && records[r.index].Item? && records[r.index].id == id
    ensures r.Found? || r.Absent? ==>
              forall k :: 0 <= k < (if r.Found? then r.index else |records|) ==>
                records[k].Item? && records[k].id != id
    ensures r.Threw? <==> exists k :: 0 <= k < |records| && records[k].Null?
                                      && forall j :: 0 <= j < k ==> records[j].Item? && records[j].id != id
  {
    if records == [] then Absent
    else if records[0].Null? then Threw
    else if records[0].id == id then Found(0)
    else
      match FindIndex(records[1..], id)
      case Found(k) => Found(k + 1)
      case Absent => Absent
      case Threw => Threw
  }

  /** One remote item folded into the working list: it replaces the first
      record with its id in place, or is appended; when reading an id
      throws, the item is skipped. A null item is only ever looked at by the
      search predicate, so an empty working list, on which `findIndex` calls
      no predicate, takes it as absent and appends it. */
  function MergeStep<P>(merged: seq<Entry<P>>, remoteItem: Entry<P>): (r: seq<Entry<P>>)
    ensures |merged| <= |r| <= |merged| + 1
    ensures |r| == |merged| + 1 ==> r == merged + [remoteItem]
    ensures forall i :: 0 <= i < |merged| && r[i] != merged[i] ==>
              r[i] == remoteItem && remoteItem.Item? && merged[i].Item? && merged[i].id == remoteItem.id
  {
    if remoteItem.Null? then (if merged == [] then merged + [remoteItem] else merged)
    else
      match FindIndex(merged, remoteItem.id)
      case Found(k) => merged[k := remoteItem]
      case Absent => merged + [remoteItem]
      case Threw => merged
  }

  /** The specification of `mergeData`: the remote items folded, in order,
      into a copy of the local list. */
  function Merged<P>(local: seq<Entry<P>>, remote: seq<Entry<P>>): (r: seq<Entry<P>>)
    ensures |local| <= |r| <= |local| + |remote|
    decreases |remote|
  {
    if remote == [] then local else Merged(MergeStep(local, remote[0]), remote[1..])
  }

  /** `mergeData`: start from a copy of `local`, then for each remote item in
      order replace the first record with its id or append it. The inputs are
      values, so neither is changed. */
  method MergeData<P>(local: seq<Entry<P>>, remote: seq<Entry<P>>) returns (merged: seq<Entry<P>>)
    ensures merged == Merged(local, remote)
  {
    merged := local;
    var i := 0;
    while i < |remote|
      invariant 0 <= i <= |remote|
      invariant Merged(merged, remote[i..]) == Merged(local, remote)
    {
      var remoteItem := remote[i];
      assert remote[i..][1..] == remote[i + 1..];
      if remoteItem.Item? {
        var localIndex := FindIndex(merged, remoteItem.id);
        if localIndex.Found? {
          merged := merged[localIndex.index := remoteItem];
        } else if localIndex.Absent? {
          merged := merged + [remoteItem];
        }
      } else if merged == [] {
        // no predicate call, so nothing throws: -1, and the item is pushed
        merged := merged + [remoteItem];
      }
      i := i + 1;
    }
  }

  /** A list without null slots. */
  predicate Records<P>(s: seq<Entry<P>>)
  {
    forall i :: 0 <= i < |s| ==> s[i].Item?
  }

  function Ids<P>(s: seq<Entry<P>>): set<string>
  {
    set i | 0 <= i < |s| && s[i].Item? :: s[i].id
  }

  lemma MergeStepShape<P>(merged: seq<Entry<P>>, item: Entry<P>)
    requires Records(merged) && item.Item?
    ensures var m := MergeStep(merged, item);
      && Records(m)
      && (item.id in Ids(merged) ==>
            (|m| == |merged| && FindIndex(merged, item.id).Found?
             && m == merged[FindIndex(merged, item.id).index := item]))
      && (item.id !in Ids(merged) ==> m == merged + [item])
  {
    var r := FindIndex(merged, item.id);
    if item.id in Ids(merged) {
      var i :| 0 <= i < |merged| && merged[i].Item? && merged[i].id == item.id;
      assert !r.Absent?;
    } else {
      assert !r.Found?;
    }
  }

  lemma MergeStepIds<P>(merged: seq<Entry<P>>, item: Entry<P>)
    requires Records(merged) && item.Item?
    ensures Ids(MergeStep(merged, item)) == Ids(merged) + {item.id}
  {
    MergeStepShape(merged, item);
    var m := MergeStep(merged, item);
    if item.id in Ids(merged) {
      var k := FindIndex(merged, item.id).index;
      forall x | x in Ids(merged) ensures x in Ids(m) {
        var i :| 0 <= i < |merged| && merged[i].Item? && merged[i].id == x;
        assert m[i].id == x;
      }
      forall x | x in Ids(m) ensures x in Ids(merged) + {item.id} {
        var i :| 0 <= i < |m| && m[i].Item? && m[i].id == x;
        if i != k { assert merged[i].id == x; }
      }
    } else {
      forall x | x in Ids(m) ensures x in Ids(merged) + {item.id} {
        var i :| 0 <= i < |m| && m[i].Item? && m[i].id == x;
        if i < |merged| { assert merged[i].id == x; }
      }
      assert m[|merged|].id == item.id;
      forall x | x in Ids(merged) ensures x in Ids(m) {
        var i :| 0 <= i < |merged| && merged[i].Item? && merged[i].id == x;
        assert m[i].id == x;
      }
    }
  }

  /** Union: the ids of the result are the ids of the local list and the ids
      of the remote list; no record is dropped. */
  lemma {:induction false} MergedIds<P>(local: seq<Entry<P>>, remote: seq<Entry<P>>)
    requires Records(local) && Records(remote)
    ensures Records(Merged(local, remote))
    ensures Ids(Merged(local, remote)) == Ids(local) + Ids(remote)
    decreases |remote|
  {
    if remote != [] {
      MergeStepShape(local, remote[0]);
      MergeStepIds(local, remote[0]);
      assert Records(remote[1..]) by {
        forall i | 0 <= i < |remote[1..]| ensures remote[1..][i].Item? { assert remote[1..][i] == remote[i + 1]; }
      }
      MergedIds(MergeStep(local, remote[0]), remote[1..]);
      assert Ids(remote) == {remote[0].id} + Ids(remote[1..]) by {
        forall x | x in Ids(remote) ensures x in {remote[0].id} + Ids(remote[1..]) {
          var i :| 0 <= i < |remote| && remote[i].Item? && remote[i].id == x;
          if i > 0 { assert remote[1..][i - 1] == remote[i]; }
        }
        forall x | x in Ids(remote[1..]) ensures x in Ids(remote) {
          var i :| 0 <= i < |remote[1..]| && remote[1..][i].Item? && remote[1..][i].id == x;
          assert remote[i + 1] == remote[1..][i];
        }
      }
    }
  }

  /** Positions are kept: the result is at least as long as the local list,
      and every local position still holds a record with the same id. */
  lemma {:induction false} MergedKeepsPositions<P>(local: seq<Entry<P>>, remote: seq<Entry<P>>)
    requires Records(local)
    ensures |Merged(local, remote)| >= |local|
    ensures forall i :: 0 <= i < |local| ==>
              Merged(local, remote)[i].Item? && Merged(local, remote)[i].id == local[i].id
    decreases |remote|
  {
    if remote != [] && local != [] {
      var next := MergeStep(local, remote[0]);
      if remote[0].Item? { MergeStepShape(local, remote[0]); }
      MergedKeepsPositions(next, remote[1..]);
    }
  }

  /** A local record whose id no remote item carries is unchanged and stays
      at its index. */
  lemma {:induction false} MergedKeepsUnmatched<P>(local: seq<Entry<P>>, remote: seq<Entry<P>>, i: nat)
    requires Records(local) && i < |local|
    requires local[i].id !in Ids(remote)
    ensures i < |Merged(local, remote)| && Merged(local, remote)[i] == local[i]
    decreases |remote|
  {
    if remote != [] {
      var next := MergeStep(local, remote[0]);
      if remote[0].Item? {
        MergeStepShape(local, remote[0]);
        assert remote[0].id in Ids(remote);
      }
      MergedKeepsUnmatched(next, remote[1..], i);
    }
  }

  /** Replacing or appending an item keeps the first index of every id that
      was already present. */
  lemma MergeStepKeepsFirstIndex<P>(merged: seq<Entry<P>>, item: Entry<P>, id: string)
    requires Records(merged) && item.Item? && FindIndex(merged, id).Found?
    ensures FindIndex(MergeStep(merged, item), id) == FindIndex(merged, id)
  {
    MergeStepShape(merged, item);
    var m := MergeStep(merged, item);
    var p := FindIndex(merged, id).index;
    var r := FindIndex(m, id);
    assert m[p].Item? && m[p].id == id by {
      if item.id in Ids(merged) {
        var k := FindIndex(merged, item.id).index;
        if k == p { assert m[p] == item; assert item.id == id; } else { assert m[p] == merged[p]; }
      } else {
        assert m[p] == merged[p];
      }
    }
    assert forall j :: 0 <= j < p ==> m[j].Item? && m[j].id != id by {
      forall j | 0 <= j < p ensures m[j].Item? && m[j].id != id {
        if item.id in Ids(merged) {
          var k := FindIndex(merged, item.id).index;
          if j == k {
            assert merged[k].id == item.id;
          } else {
            assert m[j] == merged[j];
          }
        } else {
          assert m[j] == merged[j];
        }
      }
    }
    assert Records(m);
  }

  /** Remote wins: the last remote item with an id the local list carries
      ends up where the first local record with that id was. */
  lemma {:induction false} MergedRemoteWins<P>(local: seq<Entry<P>>, remote: seq<Entry<P>>, j: nat)
    requires Records(local) && Records(remote) && j < |remote|
    requires FindIndex(local, remote[j].id).Found?
    requires forall k :: j < k < |remote| ==> remote[k].id != remote[j].id
    ensures FindIndex(local, remote[j].id).index < |Merged(local, remote)|
    ensures Merged(local, remote)[FindIndex(local, remote[j].id).index] == remote[j]
    decreases |remote|
  {
    var id := remote[j].id;
    var p := FindIndex(local, id).index;
    var next := MergeStep(local, remote[0]);
    MergeStepShape(local, remote[0]);
    assert Records(remote[1..]) by {
      forall i | 0 <= i < |remote[1..]| ensures remote[1..][i].Item? { assert remote[1..][i] == remote[i + 1]; }
    }
    MergeStepKeepsFirstIndex(local, remote[0], id);
    if j == 0 {
      assert next[p] == remote[0] by {
        assert remote[0].id in Ids(local) by { assert local[p].id == id; }
      }
      MergedKeepsUnmatched(next, remote[1..], p);
    } else {
      assert remote[1..][j - 1] == remote[j];
      MergedRemoteWins(next, remote[1..], j - 1);
    }
  }

  /** No two records of a list share an id. */
  predicate UniqueIds<P>(s: seq<Entry<P>>)
  {
    forall i, j :: 0 <= i < j < |s| && s[i].Item? && s[j].Item? ==> s[i].id != s[j].id
  }

  /** The remote items whose ids are not in `ids`, in remote order. */
  function Unmatched<P>(remote: seq<Entry<P>>, ids: set<string>): seq<Entry<P>>
  {
    if remote == [] then []
    else if remote[0].Item? && remote[0].id !in ids then [remote[0]] + Unmatched(remote[1..], ids)
    else Unmatched(remote[1..], ids)
  }

  lemma {:induction false} UnmatchedSkips<P>(remote: seq<Entry<P>>, ids: set<string>, id: string)
    requires forall k :: 0 <= k < |remote| && remote[k].Item? ==> remote[k].id != id
    ensures Unmatched(remote, ids + {id}) == Unmatched(remote, ids)
  {
    if remote != [] {
      UnmatchedSkips(remote[1..], ids, id);
    }
  }

  /** Append order: with unique remote ids, the result is the local list
      (ids in place) followed by the remote-only items in remote order, so
      its length is |local| plus the number of appends. */
  lemma {:induction false} MergedAppends<P>(local: seq<Entry<P>>, remote: seq<Entry<P>>)
    requires Records(local) && Records(remote) && UniqueIds(remote)
    ensures |Merged(local, remote)| == |local| + |Unmatched(remote, Ids(local))|
    ensures Merged(local, remote)[|local|..] == Unmatched(remote, Ids(local))
    decreases |remote|
  {
    if remote != [] {
      var next := MergeStep(local, remote[0]);
      MergeStepShape(local, remote[0]);
      UniqueTail(remote);
      MergedAppends(next, remote[1..]);
      AppendsStep(local, remote);
    }
  }

  /** One step of `MergedAppends`: its statement for the list after the
      first remote item and the remaining items gives it for the whole. */
  lemma AppendsStep<P>(local: seq<Entry<P>>, remote: seq<Entry<P>>)
    requires Records(local) && Records(remote) && UniqueIds(remote) && remote != []
    requires var next := MergeStep(local, remote[0]);
      && |Merged(next, remote[1..])| == |next| + |Unmatched(remote[1..], Ids(next))|
      && Merged(next, remote[1..])[|next|..] == Unmatched(remote[1..], Ids(next))
    ensures |Merged(local, remote)| == |local| + |Unmatched(remote, Ids(local))|
    ensures Merged(local, remote)[|local|..] == Unmatched(remote, Ids(local))
  {
    var item := remote[0];
    var next := MergeStep(local, item);
    MergeStepShape(local, item);
    MergeStepIds(local, item);
    UniqueTail(remote);
    assert Merged(local, remote) == Merged(next, remote[1..]);
    if item.id in Ids(local) {
      assert Ids(next) == Ids(local);
      assert Unmatched(remote, Ids(local)) == Unmatched(remote[1..], Ids(local));
    } else {
      AppendsAppended(local, remote, next);
    }
  }

  /** The step of `AppendsStep` where the first remote item is appended. */
  lemma AppendsAppended<P>(local: seq<Entry<P>>, remote: seq<Entry<P>>, next: seq<Entry<P>>)
    requires Records(local) && Records(remote) && remote != []
    requires forall k :: 0 <= k < |remote[1..]| ==> remote[1..][k].id != remote[0].id
    requires remote[0].id !in Ids(local) && next == local + [remote[0]]
    requires Ids(next) == Ids(local) + {remote[0].id}
    requires |Merged(next, remote[1..])| == |next| + |Unmatched(remote[1..], Ids(next))|
    requires Merged(next, remote[1..])[|next|..] == Unmatched(remote[1..], Ids(next))
    ensures |Merged(next, remote[1..])| == |local| + |Unmatched(remote, Ids(local))|
    ensures Merged(next, remote[1..])[|local|..] == Unmatched(remote, Ids(local))
  {
    var item, rest := remote[0], remote[1..];
    UnmatchedSkips(rest, Ids(local), item.id);
    assert item.id !in Ids(rest);
    assert next[|local|] == item;
    MergedKeepsUnmatched(next, rest, |local|);
    AppendsFresh(local, item, Merged(next, rest), Unmatched(rest, Ids(local)));
    assert Unmatched(remote, Ids(local)) == [item] + Unmatched(rest, Ids(local));
  }

  /** The slice arithmetic of an append: a list that extends `local` by
      `item` and then `tail` is `local` followed by `[item] + tail`. */
  lemma AppendsFresh<P>(local: seq<Entry<P>>, item: Entry<P>, m: seq<Entry<P>>, tail: seq<Entry<P>>)
    requires |local| < |m| && m[|local|] == item && m[|local| + 1..] == tail
    ensures |m| == |local| + |[item] + tail|
    ensures m[|local|..] == [item] + tail
  {
    assert m[|local|..] == [m[|local|]] + m[|local| + 1..];
  }

  /** The tail of a list of records with unique ids is one too, and none of
      its ids is the head's. */
  lemma UniqueTail<P>(remote: seq<Entry<P>>)
    requires remote != [] && Records(remote) && UniqueIds(remote)
    ensures Records(remote[1..]) && UniqueIds(remote[1..])
    ensures forall k :: 0 <= k < |remote[1..]| ==> remote[1..][k].id != remote[0].id
  {
    var rest := remote[1..];
    forall i | 0 <= i < |rest| ensures rest[i] == remote[i + 1] { }
  }

  /** Merging `[1:a, 2:b]` with `[2:B, 3:c]`: the shared id takes the remote
      value in place and the remote-only record is appended. */
  lemma MergeExample()
    ensures Merged([Item("1", "a"), Item("2", "b")], [Item("2", "B"), Item("3", "c")])
         == [Item("1", "a"), Item("2", "B"), Item("3", "c")]
  {
    var l := [Item("1", "a"), Item("2", "b")];
    assert FindIndex(l, "2") == Found(1) by {
      assert l[1..] == [Item("2", "b")];
    }
    var l2 := [Item("1", "a"), Item("2", "B")];
    assert FindIndex(l2, "3") == Absent by {
      assert l2[1..] == [Item("2", "B")];
      assert l2[1..][1..] == [];
    }
  }

  /** The best-effort policy: a null remote item is skipped when the working
      list is non-empty and appended to an empty one, and a null local slot
      met before a match makes the remote item be skipped too. */
  lemma MergeSkipsOnThrow()
    ensures Merged([Item("1", "a")], [Null, Item("1", "b")]) == [Item("1", "b")]
    ensures Merged([Null, Item("1", "a")], [Item("1", "b"), Item("2", "c")])
         == [Null, Item("1", "a")]
    ensures Merged<string>([], [Null]) == [Null]
    ensures Merged<string>([], [Null, Item("1", "a")]) == [Null]
  {
    var l := [Item("1", "a")];
    assert MergeStep(l, Null) == l;
    var n: seq<Entry<string>> := [Null];
    assert MergeStep([], Null) == n;
    assert FindIndex(n, "1") == Threw;
    var l2: seq<Entry<string>> := [Null, Item("1", "a")];
    assert FindIndex(l2, "1") == Threw;
    assert FindIndex(l2, "2") == Threw;
  }

  /** `toArray`: an array is returned as it is, anything else as `[]`. */
  function ToArray(obj: JsValue): (r: seq<JsValue>)
    ensures obj.JsArray? ==> r == obj.elements
    ensures !obj.JsArray? ==> r == []
  {
    if obj.JsArray? then obj.elements else []
  }

  const InvalidJsonMessage: string := "Invalid JSON string"

  /** `parse`: a string goes through `JSON.parse` (None when it throws),
      which fails with "Invalid JSON string"; any other input is returned
      unchanged. */
  function Parse(input: JsValue, jsonParse: string -> Option<JsValue>): (r: Result<JsValue, string>)
    ensures !input.JsString? ==> r == Ok(input)
    ensures input.JsString? ==>
              (r.Err? <==> jsonParse(input.s).None?)
              && (r.Err? ==> r.error == InvalidJsonMessage)
              && (r.Ok? ==> r.value == jsonParse(input.s).value)
  {
    if input.JsString? then
      match jsonParse(input.s)
      case None => Err(InvalidJsonMessage)
      case Some(v) => Ok(v)
    else Ok(input)
  }
}
