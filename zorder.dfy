/** The z-ordered scene list of src/scene/SceneManager.ts and the array
    manipulations its reorder operations perform. Index 0 is the bottom
    scene, the last index the top one. A slot is `None` where JavaScript
    would hold `undefined`. */
module ZOrder {
  import opened Wrappers
  import opened Messaging

  type Slot = Option<SceneId>

  /** `Array.prototype.indexOf`: the first index holding `x`, or -1. */
  function IndexOf(s: seq<Slot>, x: Slot): (i: int)
    ensures -1 <= i < |s|
    ensures i == -1 <==> x !in s
    ensures 0 <= i ==> s[i] == x
  {
    if s == [] then -1
    else if s[0] == x then 0
    else
      var j := IndexOf(s[1..], x);
      if j == -1 then -1 else j + 1
  }

  /** No slot before the one `indexOf` finds holds `x`. */
  lemma {:induction false} IndexOfFirst(s: seq<Slot>, x: Slot)
    requires x in s
    ensures x !in s[..IndexOf(s, x)]
  {
    if s[0] != x {
      IndexOfFirst(s[1..], x);
      assert s[..IndexOf(s, x)] == [s[0]] + s[1..][..IndexOf(s[1..], x)];
    }
  }

  /** `splice(i, 1)`: removes the slot at index `i`. */
  function RemoveAt(s: seq<Slot>, i: nat): (r: seq<Slot>)
    requires i < |s|
    ensures |r| == |s| - 1
  {
    s[..i] + s[i + 1..]
  }

  /** `splice(i, 1)` removes exactly one copy of the slot at `i`. */
  lemma {:induction false} RemoveAtCount(s: seq<Slot>, i: nat)
    requires i < |s|
    ensures multiset(RemoveAt(s, i)) == multiset(s) - multiset{s[i]}
  {
    assert s == s[..i] + [s[i]] + s[i + 1..];
  }

  /** `splice(start, 1)` for any start: a negative start counts back from
      the end, so -1 removes the last slot; a start at or past the end
      removes nothing. */
  function SpliceOne(s: seq<Slot>, start: int): (r: seq<Slot>)
    ensures 0 <= start < |s| ==> r == RemoveAt(s, start)
    ensures start == -1 && s != [] ==> r == s[..|s| - 1]
    ensures start >= |s| ==> r == s
  {
    var k := if start >= 0 then start else if |s| + start >= 0 then |s| + start else 0;
    if k < |s| then RemoveAt(s, k) else s
  }

  /** `splice(k, 0, x)`: inserts `x` before index `k`; a start beyond the
      end is clamped to the length, as JavaScript does. */
  function InsertAt(s: seq<Slot>, k: nat, x: Slot): (r: seq<Slot>)
    ensures |r| == |s| + 1
    ensures r[if k <= |s| then k else |s|] == x
  {
    var j := if k <= |s| then k else |s|;
    s[..j] + [x] + s[j..]
  }

  /** `splice(k, 0, x)` adds exactly one copy of `x`. */
  lemma {:induction false} InsertAtCount(s: seq<Slot>, k: nat, x: Slot)
    ensures multiset(InsertAt(s, k, x)) == multiset(s) + multiset{x}
  {
    var j := if k <= |s| then k else |s|;
    assert s == s[..j] + s[j..];
  }

  /** Index assignment `s[k] = v`; assigning at the length grows the array. */
  function Assign(s: seq<Slot>, k: nat, v: Slot): (r: seq<Slot>)
    requires k <= |s|
    ensures |r| == if k < |s| then |s| else |s| + 1
    ensures r[k] == v && forall j :: 0 <= j < |s| && j != k ==> r[j] == s[j]
  {
    if k < |s| then s[k := v] else s + [v]
  }

  /** `_bringToTop`: the scene is taken out and pushed on top. */
  function BringToTop(s: seq<Slot>, id: SceneId): (r: seq<Slot>)
    ensures Some(id) !in s ==> r == s
  {
    var i := IndexOf(s, Some(id));
    if i != -1 && i < |s| then RemoveAt(s, i) + [Some(id)] else s
  }

  /** `_sendToBack`: a scene above the bottom is taken out and put at index 0. */
  function SendToBack(s: seq<Slot>, id: SceneId): (r: seq<Slot>)
    ensures Some(id) !in s ==> r == s
  {
    var i := IndexOf(s, Some(id));
    if i > 0 then [Some(id)] + RemoveAt(s, i) else s
  }

  /** `_moveAbove`: both indices are computed first, then the subject is
      removed and re-inserted after the target's old index. */
  function MoveAbove(s: seq<Slot>, subject: SceneId, target: SceneId): (r: seq<Slot>)
    ensures Some(subject) !in s || Some(target) !in s ==> r == s
  {
    var ti := IndexOf(s, Some(target));
    var si := IndexOf(s, Some(subject));
    if ti != -1 && si != -1 then InsertAt(RemoveAt(s, si), ti + 1, Some(subject)) else s
  }

  /** `_moveBelow`: as `_moveAbove`, re-inserting at the target's old index. */
  function MoveBelow(s: seq<Slot>, subject: SceneId, target: SceneId): (r: seq<Slot>)
    ensures Some(subject) !in s || Some(target) !in s ==> r == s
  {
    var ti := IndexOf(s, Some(target));
    var si := IndexOf(s, Some(subject));
    if ti != -1 && si != -1 then InsertAt(RemoveAt(s, si), ti, Some(subject)) else s
  }

  /** `_moveUp`: the guard `index < length` always holds, so on the top
      scene the slot it leaves becomes `undefined` and the list grows. */
  function MoveUp(s: seq<Slot>, id: SceneId): (r: seq<Slot>)
    ensures Some(id) !in s ==> r == s
  {
    var i := IndexOf(s, Some(id));
    if i != -1 && i < |s| then
      var t := if i + 1 < |s| then s[i + 1] else None;
      Assign(Assign(s, i, t), i + 1, Some(id))
    else s
  }

  /** `_moveDown`: a scene above the bottom trades places with the one below. */
  function MoveDown(s: seq<Slot>, id: SceneId): (r: seq<Slot>)
    ensures Some(id) !in s ==> r == s
  {
    var i := IndexOf(s, Some(id));
    if i > 0 then s[i := s[i - 1]][i - 1 := Some(id)] else s
  }

  /** `_swap`: two scenes at different indices trade places. */
  function Swap(s: seq<Slot>, subject: SceneId, target: SceneId): (r: seq<Slot>)
    ensures Some(subject) !in s || Some(target) !in s ==> r == s
  {
    var si := IndexOf(s, Some(subject));
    var ti := IndexOf(s, Some(target));
    if si != ti && si != -1 && ti != -1 then s[si := Some(target)][ti := Some(subject)] else s
  }

  // ---- The reorders keep every slot's count ----------------------------------

  lemma {:induction false} BringToTopCount(s: seq<Slot>, id: SceneId)
    ensures multiset(BringToTop(s, id)) == multiset(s)
  {
    var i := IndexOf(s, Some(id));
    if i != -1 {
      RemoveAtCount(s, i);
    }
  }

  lemma {:induction false} SendToBackCount(s: seq<Slot>, id: SceneId)
    ensures multiset(SendToBack(s, id)) == multiset(s)
  {
    var i := IndexOf(s, Some(id));
    if i > 0 {
      RemoveAtCount(s, i);
    }
  }

  lemma {:induction false} MoveAboveCount(s: seq<Slot>, subject: SceneId, target: SceneId)
    ensures multiset(MoveAbove(s, subject, target)) == multiset(s)
  {
    var ti := IndexOf(s, Some(target));
    var si := IndexOf(s, Some(subject));
    if ti != -1 && si != -1 {
      var k: nat := ti + 1;
      RemoveInsertCount(s, si, k);
      assert MoveAbove(s, subject, target) == InsertAt(RemoveAt(s, si), k, s[si]);
    }
  }

  lemma {:induction false} MoveBelowCount(s: seq<Slot>, subject: SceneId, target: SceneId)
    ensures multiset(MoveBelow(s, subject, target)) == multiset(s)
  {
    var ti := IndexOf(s, Some(target));
    var si := IndexOf(s, Some(subject));
    if ti != -1 && si != -1 {
      assert MoveBelow(s, subject, target) == InsertAt(RemoveAt(s, si), ti, s[si]);
      RemoveInsertCount(s, si, ti);
    }
  }

  /** Taking a slot out and putting it back anywhere keeps every count. */
  lemma {:induction false} RemoveInsertCount(s: seq<Slot>, i: nat, k: nat)
    requires i < |s|
    ensures multiset(InsertAt(RemoveAt(s, i), k, s[i])) == multiset(s)
  {
    RemoveAtCount(s, i);
    InsertAtCount(RemoveAt(s, i), k, s[i]);
  }

  /** `moveUp` keeps the counts below the top; on the top scene it adds
      one `undefined` slot. */
  lemma {:induction false} MoveUpCount(s: seq<Slot>, id: SceneId)
    ensures Some(id) in s && IndexOf(s, Some(id)) < |s| - 1 ==> multiset(MoveUp(s, id)) == multiset(s)
    ensures Some(id) in s && IndexOf(s, Some(id)) == |s| - 1 ==> multiset(MoveUp(s, id)) == multiset(s) + multiset{None}
  {
    var i := IndexOf(s, Some(id));
    if i != -1 {
      var r := MoveUp(s, id);
      assert i + 1 < |s| ==> r == s[i := s[i + 1]][i + 1 := s[i]];
      assert i + 1 == |s| ==> r == s[i := None] + [s[i]];
    }
  }

  lemma {:induction false} MoveDownCount(s: seq<Slot>, id: SceneId)
    ensures multiset(MoveDown(s, id)) == multiset(s)
  {
    var i := IndexOf(s, Some(id));
    if i > 0 {
      assert MoveDown(s, id) == s[i := s[i - 1]][i - 1 := s[i]];
    }
  }

  lemma {:induction false} SwapCount(s: seq<Slot>, subject: SceneId, target: SceneId)
    ensures multiset(Swap(s, subject, target)) == multiset(s)
  {
    var si := IndexOf(s, Some(subject));
    var ti := IndexOf(s, Some(target));
    if si != ti && si != -1 && ti != -1 {
      assert Swap(s, subject, target) == s[si := s[ti]][ti := s[si]];
    }
  }

  /** The slots other than `x`, in their order. */
  function Without(s: seq<Slot>, x: Slot): (r: seq<Slot>)
    ensures x !in r
    ensures forall y :: y != x ==> multiset(r)[y] == multiset(s)[y]
  {
    if s == [] then []
    else
      assert s == [s[0]] + s[1..];
      (if s[0] == x then [] else [s[0]]) + Without(s[1..], x)
  }

  lemma {:induction false} WithoutConcat(a: seq<Slot>, b: seq<Slot>, x: Slot)
    ensures Without(a + b, x) == Without(a, x) + Without(b, x)
  {
    if a == [] {
      assert a + b == b;
    } else {
      assert (a + b)[0] == a[0];
      assert (a + b)[1..] == a[1..] + b;
      WithoutConcat(a[1..], b, x);
    }
  }

  /** An occurrence of `x` between two parts does not show in `Without`. */
  lemma {:induction false} WithoutDrops(a: seq<Slot>, b: seq<Slot>, x: Slot)
    ensures Without(a + [x] + b, x) == Without(a + b, x)
  {
    WithoutConcat(a + [x], b, x);
    WithoutConcat(a, [x], x);
    WithoutConcat(a, b, x);
  }

  /** Taking out the slot at `i` and putting `x` back anywhere leaves the
      order of the other slots as it was, provided the slot held `x`. */
  lemma {:induction false} MoveKeepsOthers(s: seq<Slot>, i: nat, k: nat, x: Slot)
    requires i < |s| && s[i] == x
    ensures Without(InsertAt(RemoveAt(s, i), k, x), x) == Without(s, x)
  {
    var t := RemoveAt(s, i);
    var j := if k <= |t| then k else |t|;
    assert s == s[..i] + [x] + s[i + 1..];
    WithoutDrops(s[..i], s[i + 1..], x);
    assert t == t[..j] + t[j..];
    WithoutDrops(t[..j], t[j..], x);
  }

  /** `bringToTop` puts the scene last and keeps the others' order. */
  lemma {:induction false} BringToTopMoves(s: seq<Slot>, id: SceneId)
    requires Some(id) in s
    ensures var r := BringToTop(s, id);
      |r| == |s| && r[|r| - 1] == Some(id) && Without(r, Some(id)) == Without(s, Some(id))
  {
    var i := IndexOf(s, Some(id));
    MoveKeepsOthers(s, i, |s|, Some(id));
    assert InsertAt(RemoveAt(s, i), |s|, Some(id)) == RemoveAt(s, i) + [Some(id)];
  }

  /** `sendToBack` puts the scene at index 0 and keeps the others' order. */
  lemma {:induction false} SendToBackMoves(s: seq<Slot>, id: SceneId)
    requires Some(id) in s
    ensures var r := SendToBack(s, id);
      |r| == |s| && r[0] == Some(id) && Without(r, Some(id)) == Without(s, Some(id))
  {
    var i := IndexOf(s, Some(id));
    if i > 0 {
      MoveKeepsOthers(s, i, 0, Some(id));
      assert InsertAt(RemoveAt(s, i), 0, Some(id)) == [Some(id)] + RemoveAt(s, i);
    }
  }

  /** `moveDown` above the bottom trades places with the lower neighbour;
      at the bottom it changes nothing. */
  lemma {:induction false} MoveDownSwaps(s: seq<Slot>, id: SceneId)
    requires Some(id) in s
    ensures var i := IndexOf(s, Some(id)); var r := MoveDown(s, id);
      if i > 0 then r == s[i := s[i - 1]][i - 1 := s[i]] else r == s
  {
  }

  /** `moveUp` below the top trades places with the upper neighbour; on the
      top scene it leaves an `undefined` slot and grows the list by one. */
  lemma {:induction false} MoveUpSwaps(s: seq<Slot>, id: SceneId)
    requires Some(id) in s
    ensures var i := IndexOf(s, Some(id)); var r := MoveUp(s, id);
      if i + 1 < |s| then r == s[i := s[i + 1]][i + 1 := s[i]]
      else |r| == |s| + 1 && r[i] == None && r[i + 1] == Some(id) && r[..i] == s[..i]
  {
  }

  /** `swap` of two distinct scenes exchanges exactly their two positions. */
  lemma {:induction false} SwapExchanges(s: seq<Slot>, a: SceneId, b: SceneId)
    requires a != b && Some(a) in s && Some(b) in s
    ensures var i := IndexOf(s, Some(a)); var j := IndexOf(s, Some(b)); var r := Swap(s, a, b);
      |r| == |s| && r[i] == Some(b) && r[j] == Some(a)
      && forall k :: 0 <= k < |s| && k != i && k != j ==> r[k] == s[k]
  {
  }

  /** When the subject sits above the target, `moveAbove` places it
      directly above the target and keeps the others' order. */
  lemma {:induction false} MoveAboveFromAbove(s: seq<Slot>, subject: SceneId, target: SceneId)
    requires Some(subject) in s && Some(target) in s
    requires IndexOf(s, Some(target)) < IndexOf(s, Some(subject))
    ensures var ti := IndexOf(s, Some(target)); var r := MoveAbove(s, subject, target);
      |r| == |s| && r[ti] == Some(target) && r[ti + 1] == Some(subject)
      && Without(r, Some(subject)) == Without(s, Some(subject))
  {
    var ti, si := IndexOf(s, Some(target)), IndexOf(s, Some(subject));
    MoveKeepsOthers(s, si, ti + 1, Some(subject));
    assert RemoveAt(s, si)[ti] == s[ti];
  }

  /** When the subject sits below a target that is not on top, `moveAbove`
      leaves one scene between them: the target drops by one and the
      subject lands two above it. */
  lemma {:induction false} MoveAboveFromBelow(s: seq<Slot>, subject: SceneId, target: SceneId)
    requires Some(subject) in s && Some(target) in s
    requires IndexOf(s, Some(subject)) < IndexOf(s, Some(target)) < |s| - 1
    ensures MoveAbove(s, subject, target)[IndexOf(s, Some(target)) - 1] == Some(target)
    ensures MoveAbove(s, subject, target)[IndexOf(s, Some(target))] == s[IndexOf(s, Some(target)) + 1]
    ensures MoveAbove(s, subject, target)[IndexOf(s, Some(target)) + 1] == Some(subject)
  {
    MoveAboveShape(s, subject, target);
    RemoveThenInsertAbove(s, MoveAbove(s, subject, target), IndexOf(s, Some(subject)),
                          IndexOf(s, Some(target)), Some(subject));
  }

  /** Removing index `si` and inserting `x` above `ti > si` shifts the
      slots between them down by one. */
  lemma {:induction false} RemoveThenInsertAbove(s: seq<Slot>, r: seq<Slot>, si: nat, ti: nat, x: Slot)
    requires si < ti < |s| - 1 && r == InsertAt(RemoveAt(s, si), ti + 1, x)
    ensures |r| == |s| && r[ti - 1] == s[ti] && r[ti] == s[ti + 1] && r[ti + 1] == x
  {
    var t := RemoveAt(s, si);
    assert t == s[..si] + s[si + 1..];
    assert t[ti - 1] == s[ti] && t[ti] == s[ti + 1];
  }

  /** With both scenes listed, `moveAbove` removes the subject, then
      re-inserts it just above the target's old index. */
  lemma {:induction false} MoveAboveShape(s: seq<Slot>, subject: SceneId, target: SceneId)
    requires Some(subject) in s && Some(target) in s
    ensures MoveAbove(s, subject, target)
      == InsertAt(RemoveAt(s, IndexOf(s, Some(subject))), IndexOf(s, Some(target)) + 1, Some(subject))
  {
  }

  /** When the subject sits above the target, `moveBelow` places it
      directly below the target and keeps the others' order. */
  lemma {:induction false} MoveBelowFromAbove(s: seq<Slot>, subject: SceneId, target: SceneId)
    requires Some(subject) in s && Some(target) in s
    requires IndexOf(s, Some(target)) < IndexOf(s, Some(subject))
    ensures var ti := IndexOf(s, Some(target)); var r := MoveBelow(s, subject, target);
      |r| == |s| && r[ti] == Some(subject) && r[ti + 1] == Some(target)
      && Without(r, Some(subject)) == Without(s, Some(subject))
  {
    var ti, si := IndexOf(s, Some(target)), IndexOf(s, Some(subject));
    MoveKeepsOthers(s, si, ti, Some(subject));
    assert RemoveAt(s, si)[ti] == s[ti];
  }

  /** When the subject sits below the target, `moveBelow` puts it directly
      ABOVE the target, because the target's index was taken before the
      removal shifted it down. */
  lemma {:induction false} MoveBelowFromBelow(s: seq<Slot>, subject: SceneId, target: SceneId)
    requires Some(subject) in s && Some(target) in s
    requires IndexOf(s, Some(subject)) < IndexOf(s, Some(target))
    ensures var ti := IndexOf(s, Some(target)); var r := MoveBelow(s, subject, target);
      r[ti - 1] == Some(target) && r[ti] == Some(subject)
  {
    var ti, si := IndexOf(s, Some(target)), IndexOf(s, Some(subject));
    var t := RemoveAt(s, si);
    assert t[ti - 1] == s[ti];
  }

  /** Removing a scene that occurs once takes it out of the list and keeps
      the other scenes in their relative order. */
  lemma {:induction false} RemoveKeepsOthers(s: seq<Slot>, id: SceneId)
    requires multiset(s)[Some(id)] == 1
    ensures var r := SpliceOne(s, IndexOf(s, Some(id)));
      Some(id) !in r && Without(r, Some(id)) == Without(s, Some(id))
  {
    var i := IndexOf(s, Some(id));
    var r := RemoveAt(s, i);
    assert SpliceOne(s, i) == r;
    RemoveAtCount(s, i);
    assert multiset(r)[Some(id)] == 0;
    assert s == s[..i] + [s[i]] + s[i + 1..];
    WithoutDrops(s[..i], s[i + 1..], Some(id));
  }
}
