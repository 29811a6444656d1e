/**
 * The list idiom used throughout the path code: build a list of
 * candidates, then add each further candidate that is not already in it
 * (`if (!list.contains(p)) list.add(p)`).
 */
module Lists {
  import opened Wrappers

  predicate NoDup<T(==)>(s: seq<T>)
  {
    forall i, j :: 0 <= i < j < |s| ==> s[i] != s[j]
  }

  lemma ConcatAssoc<T>(a: seq<T>, b: seq<T>, c: seq<T>)
    ensures a + b + c == a + (b + c)
  {
  }

  /** `base` followed by the elements of `extra` that are not yet present, in order. */
  function AppendAbsent<T(==,!new)>(base: seq<T>, extra: seq<T>): (r: seq<T>)
    decreases |extra|
    ensures |base| <= |r| <= |base| + |extra|
    ensures r[..|base|] == base
    ensures forall x :: x in r <==> x in base || x in extra
    ensures NoDup(base) ==> NoDup(r)
  {
    if |extra| == 0 then base
    else AppendAbsent(if extra[0] in base then base else base + [extra[0]], extra[1..])
  }

  /** The tail of distinct candidates that are all new is distinct and new after the head is added. */
  lemma AllNewTail<T>(base: seq<T>, extra: seq<T>)
    requires |extra| > 0
    requires NoDup(extra)
    requires forall x :: x in extra ==> x !in base
    ensures NoDup(extra[1..])
    ensures forall x :: x in extra[1..] ==> x !in base + [extra[0]]
  {
    forall x | x in extra[1..]
      ensures x !in base + [extra[0]]
    {
      var k :| 0 <= k < |extra[1..]| && extra[1..][k] == x;
      assert extra[k + 1] == x;
    }
    forall i, j | 0 <= i < j < |extra[1..]|
      ensures extra[1..][i] != extra[1..][j]
    {
      assert extra[1..][i] == extra[i + 1] && extra[1..][j] == extra[j + 1];
    }
  }

  /** A new head candidate is appended before the rest are considered. */
  lemma AppendAbsentNewHead<T(!new)>(base: seq<T>, extra: seq<T>)
    requires |extra| > 0 && extra[0] !in base
    ensures AppendAbsent(base, extra) == AppendAbsent(base + [extra[0]], extra[1..])
  {
  }

  /** Candidates that are distinct and all new are appended as they are. */
  lemma {:induction false} AppendAbsentAllNew<T(!new)>(base: seq<T>, extra: seq<T>)
    requires NoDup(extra)
    requires forall x :: x in extra ==> x !in base
    ensures AppendAbsent(base, extra) == base + extra
    decreases |extra|
  {
    if |extra| > 0 {
      calc {
        AppendAbsent(base, extra);
      == { AppendAbsentNewHead(base, extra); }
        AppendAbsent(base + [extra[0]], extra[1..]);
      == { AllNewTail(base, extra); AppendAbsentAllNew(base + [extra[0]], extra[1..]); }
        base + [extra[0]] + extra[1..];
      == { assert [extra[0]] + extra[1..] == extra; }
        base + extra;
      }
    }
  }

  /** Every appended element is new with respect to everything before it, whatever `base` holds. */
  lemma {:induction false} AppendAbsentAddsOnlyNew<T(!new)>(base: seq<T>, extra: seq<T>)
    ensures forall i :: |base| <= i < |AppendAbsent(base, extra)| ==>
      AppendAbsent(base, extra)[i] !in AppendAbsent(base, extra)[..i]
    decreases |extra|
  {
    if |extra| > 0 {
      var next := if extra[0] in base then base else base + [extra[0]];
      AppendAbsentAddsOnlyNew(next, extra[1..]);
      var r := AppendAbsent(base, extra);
      assert r == AppendAbsent(next, extra[1..]);
      if next != base {
        assert r[..|next|] == next;
        assert r[|base|] == extra[0];
        assert r[..|base|] == base;
      }
    }
  }

  /** Adding candidates that are all present already leaves the list as it is. */
  lemma {:induction false} AppendAbsentAllPresent<T(!new)>(base: seq<T>, extra: seq<T>)
    requires forall x :: x in extra ==> x in base
    ensures AppendAbsent(base, extra) == base
    decreases |extra|
  {
    if |extra| > 0 {
      assert extra[0] in base;
      forall x | x in extra[1..]
        ensures x in base
      {
        var k :| 0 <= k < |extra[1..]| && extra[1..][k] == x;
        assert extra[k + 1] == x;
      }
      AppendAbsentAllPresent(base, extra[1..]);
    }
  }

  /** The loop `for (p : extra) if (!list.contains(p)) list.add(p);`. */
  method AppendMissing<T(==,!new)>(base: seq<T>, extra: seq<T>) returns (r: seq<T>)
    ensures r == AppendAbsent(base, extra)
  {
    r := base;
    var i := 0;
    while i < |extra|
      invariant 0 <= i <= |extra|
      invariant AppendAbsent(r, extra[i..]) == AppendAbsent(base, extra)
    {
      assert extra[i..][0] == extra[i] && extra[i..][1..] == extra[i + 1..];
      if extra[i] !in r {
        r := r + [extra[i]];
      }
      i := i + 1;
    }
  }

  /** The position of the first element that satisfies `ok`, if any. */
  function FirstIndex<T>(ok: T -> bool, xs: seq<T>): (r: Option<nat>)
    decreases |xs|
    ensures r.Some? ==> r.value < |xs| && ok(xs[r.value])
    ensures r.Some? ==> forall j :: 0 <= j < r.value ==> !ok(xs[j])
    ensures r.None? ==> forall j :: 0 <= j < |xs| ==> !ok(xs[j])
  {
    if |xs| == 0 then None
    else if ok(xs[0]) then Some(0)
    else match FirstIndex(ok, xs[1..])
      case None => None
      case Some(i) => Some(i + 1)
  }

  /** An element that satisfies `ok`, after elements that do not, is the first. */
  lemma {:induction false} FirstIndexAt<T>(ok: T -> bool, xs: seq<T>, i: nat)
    requires i < |xs| && ok(xs[i])
    requires forall j :: 0 <= j < i ==> !ok(xs[j])
    ensures FirstIndex(ok, xs) == Some(i)
    decreases i
  {
    if i > 0 {
      assert !ok(xs[0]);
      assert forall j :: 0 <= j < i - 1 ==> xs[1..][j] == xs[j + 1];
      FirstIndexAt(ok, xs[1..], i - 1);
    }
  }

  lemma {:induction false} FirstIndexNone<T>(ok: T -> bool, xs: seq<T>)
    requires forall j :: 0 <= j < |xs| ==> !ok(xs[j])
    ensures FirstIndex(ok, xs) == None
    decreases |xs|
  {
    if |xs| > 0 {
      assert !ok(xs[0]);
      assert forall j :: 0 <= j < |xs| - 1 ==> xs[1..][j] == xs[j + 1];
      FirstIndexNone(ok, xs[1..]);
    }
  }
}
