/**
 Argument permutation: the in-place exchange of two adjacent blocks of argv, and
 the scan that moves the options in front of the other arguments and reports
 their letters. Strings hold no NUL.
 */
module Getopt {

  // ----- elements and letters

  /** NONOPTION_P */
  predicate IsNonOption(text: string) { |text| < 2 || text[0] != '-' }

  predicate IsOption(text: string) { !IsNonOption(text) && text != "--" }

  /** The letters of an option element. */
  function Cluster(text: string): string { if text == "" then "" else text[1..] }

  /** What the option string says of a letter. */
  datatype Kind = Unknown | Plain | Optional | Required

  /** my_index: the first place of the character, or the length. */
  function IndexOf(str: string, chr: char): (i: nat)
    ensures i <= |str| && (i < |str| ==> str[i] == chr)
    ensures forall k :: 0 <= k < i ==> str[k] != chr
  {
    if str == "" || str[0] == chr then 0 else 1 + IndexOf(str[1..], chr)
  }

  method MyIndex(str: string, chr: char) returns (i: nat)
    ensures i == IndexOf(str, chr)
  {
    i := 0;
    while i < |str|
      invariant 0 <= i <= |str| && forall k :: 0 <= k < i ==> str[k] != chr
    {
      if str[i] == chr {
        return;
      }
      i := i + 1;
    }
  }

  function KindAt(optstring: string, i: nat, c: char): Kind {
    if i >= |optstring| || c == ':' then Unknown
    else if i + 1 < |optstring| && optstring[i + 1] == ':' then
      if i + 2 < |optstring| && optstring[i + 2] == ':' then Optional else Required
    else Plain
  }

  function KindOf(optstring: string, c: char): Kind { KindAt(optstring, IndexOf(optstring, c), c) }

  /**
   The option string leaves the ordering to permutation, and does not ask for long options through the letter W, for
   which there has to be a list of them.
   */
  predicate Supported(optstring: string) {
    && (optstring != "" ==> optstring[0] != '+' && optstring[0] != '-')
    && var i := IndexOf(optstring, 'W');
    !(i + 1 < |optstring| && optstring[i + 1] == ';')
  }

  datatype Argument = Nothing | Text(text: string)

  /** What one call reports: an option letter, an unknown one, one whose argument is missing, or the end. */
  datatype Found = Found(letter: char, argument: Argument) | Invalid(letter: char) | Missing(letter: char) | End

  // ----- what a scan is for

  /** The reports on a cluster that is followed by these elements. */
  function Letters(o: string, cluster: string, next: seq<string>): (r: seq<Found>)
    ensures cluster != "" ==> r != []
    decreases |cluster|
  {
    if cluster == "" then []
    else
      var c, rest := cluster[0], cluster[1..];
      match KindOf(o, c)
      case Unknown => [Invalid(c)] + Letters(o, rest, next)
      case Plain => [Found(c, Nothing)] + Letters(o, rest, next)
      case Optional => [Found(c, if rest == "" then Nothing else Text(rest))]
      case Required =>
        if rest != "" then [Found(c, Text(rest))]
        else if next == [] then [Missing(c)]
        else [Found(c, Text(next[0]))]
  }

  /** The last letter of the cluster is an option whose argument is the next element. */
  predicate Wants(o: string, cluster: string)
    decreases |cluster|
  {
    cluster != "" &&
    match KindOf(o, cluster[0])
    case Optional => false
    case Required => |cluster| == 1
    case _ => Wants(o, cluster[1..])
  }

  /** How many elements an option takes up. */
  function Taken(o: string, s: seq<string>): (k: nat)
    requires s != []
    ensures 1 <= k <= 2 && k <= |s|
  {
    if Wants(o, Cluster(s[0])) && |s| > 1 then 2 else 1
  }

  /** The elements a scan uses up, in their order: options, their arguments, and the first `--`. */
  function Consumed(o: string, s: seq<string>): (r: seq<string>)
    ensures |r| <= |s|
    decreases |s|
  {
    if s == [] then []
    else if IsNonOption(s[0]) then Consumed(o, s[1..])
    else if s[0] == "--" then [s[0]]
    else s[..Taken(o, s)] + Consumed(o, s[Taken(o, s)..])
  }

  /** The elements it leaves to the caller, in their order: non-options, and everything after `--`. */
  function Remaining(o: string, s: seq<string>): (r: seq<string>)
    decreases |s|
  {
    if s == [] then []
    else if IsNonOption(s[0]) then [s[0]] + Remaining(o, s[1..])
    else if s[0] == "--" then s[1..]
    else Remaining(o, s[Taken(o, s)..])
  }

  /** What it reports, in order. */
  function Options(o: string, s: seq<string>): (r: seq<Found>)
    decreases |s|
  {
    if s == [] then []
    else if IsNonOption(s[0]) then Options(o, s[1..])
    else if s[0] == "--" then []
    else Letters(o, Cluster(s[0]), s[1..]) + Options(o, s[Taken(o, s)..])
  }

  /** Nothing is lost or invented. */
  lemma {:induction false} NothingLost(o: string, s: seq<string>)
    ensures multiset(Consumed(o, s)) + multiset(Remaining(o, s)) == multiset(s)
    decreases |s|
  {
    if s != [] {
      if IsNonOption(s[0]) {
        NothingLost(o, s[1..]);
        assert s == [s[0]] + s[1..];
      } else if s[0] == "--" {
        assert s == [s[0]] + s[1..];
      } else {
        var k := Taken(o, s);
        NothingLost(o, s[k..]);
        assert s == s[..k] + s[k..];
        hide Taken;
      }
    }
  }

  // ----- every character is reported once

  function Shown(f: Found): string {
    match f
    case Found(c, Text(t)) => [c] + t
    case Found(c, Nothing) => [c]
    case Invalid(c) => [c]
    case Missing(c) => [c]
    case End => ""
  }

  /** The letters and arguments of the reports, one after the other. */
  function Rendered(fs: seq<Found>): string {
    if fs == [] then "" else Shown(fs[0]) + Rendered(fs[1..])
  }

  /** The used-up elements spelled out without their dashes. */
  function Spelled(o: string, s: seq<string>): string
    decreases |s|
  {
    if s == [] || s[0] == "--" then ""
    else
      var k := Taken(o, s);
      Cluster(s[0]) + (if k == 2 then s[1] else "") + Spelled(o, s[k..])
  }

  lemma FirstRendered(a: seq<Found>)
    requires a != []
    ensures Rendered(a) == Shown(a[0]) + Rendered(a[1..])
  {}

  lemma {:induction false} RenderedConcat(a: seq<Found>, b: seq<Found>)
    ensures Rendered(a + b) == Rendered(a) + Rendered(b)
    decreases |a|
  {
    if a == [] {
      assert a + b == b;
    } else {
      RenderedConcat(a[1..], b);
      FirstRendered(a);
      FirstRendered(a + b);
      assert (a + b)[0] == a[0] && (a + b)[1..] == a[1..] + b;
      hide *;
      Regroup(Shown(a[0]), Rendered(a[1..]), Rendered(b),
              Rendered(a), Rendered(a[1..] + b), Rendered(a) + Rendered(b));
    }
  }

  lemma {:induction false} LettersShown(o: string, cluster: string, next: seq<string>)
    ensures Rendered(Letters(o, cluster, next)) ==
      cluster + if Wants(o, cluster) && next != [] then next[0] else ""
    decreases |cluster|
  {
    if cluster != "" {
      var rest, fs := cluster[1..], Letters(o, cluster, next);
      assert cluster == [cluster[0]] + rest;
      if KindOf(o, cluster[0]).Unknown? || KindOf(o, cluster[0]).Plain? {
        LettersShown(o, rest, next);
        assert fs[1..] == Letters(o, rest, next);
      } else {
        assert fs[1..] == [];
      }
      hide KindOf;
    }
  }

  /**
   The reports spell out what is used up: each character of each option element is, in order, a letter reported or
   part of an argument, and each element taken as an argument is reported whole.
   */
  lemma {:induction false} ConsumedIsReported(o: string, s: seq<string>)
    ensures Rendered(Options(o, s)) == Spelled(o, Consumed(o, s))
    decreases |s|
  {
    if s != [] {
      if IsNonOption(s[0]) {
        ConsumedIsReported(o, s[1..]);
      } else if s[0] != "--" {
        var k := Taken(o, s);
        ConsumedIsReported(o, s[k..]);
        ShownFirst(o, s);
        SpelledFirst(o, s[..k], Consumed(o, s[k..]), s);
        assert Consumed(o, s) == s[..k] + Consumed(o, s[k..]);
        hide *;
      }
    }
  }

  lemma ShownFirst(o: string, s: seq<string>)
    requires s != [] && IsOption(s[0])
    ensures
      var k := Taken(o, s);
      Rendered(Options(o, s)) == Cluster(s[0]) + (if k == 2 then s[1] else "") + Rendered(Options(o, s[k..]))
  {
    LettersShown(o, Cluster(s[0]), s[1..]);
    RenderedConcat(Letters(o, Cluster(s[0]), s[1..]), Options(o, s[Taken(o, s)..]));
    hide Wants, Letters, Rendered, Cluster;
  }

  lemma SpelledFirst(o: string, u: seq<string>, t: seq<string>, s: seq<string>)
    requires s != [] && IsOption(s[0]) && u == s[..Taken(o, s)] && |u| + |t| <= |s|
    ensures Spelled(o, u + t) == Cluster(s[0]) + (if |u| == 2 then s[1] else "") + Spelled(o, t)
  {
    assert (u + t)[0] == s[0];
    assert |u| == 2 ==> (u + t)[1] == s[1];
    assert Taken(o, u + t) == |u|;
    assert (u + t)[|u|..] == t;
    hide Wants, Cluster;
  }

  // ----- scanning again

  /** The scan meets no `--`, and no option is left without the argument it wants. */
  predicate Unbroken(o: string, s: seq<string>)
    decreases |s|
  {
    s == [] ||
    (if IsNonOption(s[0]) then Unbroken(o, s[1..])
     else s[0] != "--" && (Wants(o, Cluster(s[0])) ==> |s| > 1) && Unbroken(o, s[Taken(o, s)..]))
  }

  /** Only the next element matters for the reports on a cluster, and only if it is wanted. */
  lemma {:induction false} LettersLocal(o: string, cluster: string, next: seq<string>, other: seq<string>)
    requires Wants(o, cluster) ==> next != [] && other != [] && next[0] == other[0]
    ensures Letters(o, cluster, next) == Letters(o, cluster, other)
    decreases |cluster|
  {
    if cluster != "" {
      var kind := KindOf(o, cluster[0]);
      if kind.Unknown? || kind.Plain? {
        LettersLocal(o, cluster[1..], next, other);
      }
      hide KindOf;
    }
  }

  /** An option with its argument, in front of any elements. */
  lemma OptionFirst(o: string, u: seq<string>, t: seq<string>)
    requires u != [] && IsOption(u[0]) && |u| == if Wants(o, Cluster(u[0])) then 2 else 1
    ensures Taken(o, u + t) == |u|
    ensures Options(o, u + t) == Letters(o, Cluster(u[0]), u[1..]) + Options(o, t)
    ensures Consumed(o, u + t) == u + Consumed(o, t) && Remaining(o, u + t) == Remaining(o, t)
  {
    var s := u + t;
    assert s[0] == u[0] && s[|u|..] == t && s[..|u|] == u;
    assert |u| == 2 ==> s[1..][0] == u[1..][0];
    LettersLocal(o, Cluster(u[0]), s[1..], u[1..]);
    hide Wants, Letters, Cluster;
  }

  /** The consumed elements of s, followed by rest, scan to the reports of s and leave rest. */
  ghost predicate ScansAlike(o: string, s: seq<string>, rest: seq<string>) {
    var again := Consumed(o, s) + rest;
    Options(o, again) == Options(o, s) && Consumed(o, again) == Consumed(o, s) && Remaining(o, again) == rest
  }

  lemma OptionAgain(o: string, u: seq<string>, t: seq<string>, rest: seq<string>)
    requires u != [] && IsOption(u[0]) && |u| == if Wants(o, Cluster(u[0])) then 2 else 1
    requires ScansAlike(o, t, rest)
    ensures ScansAlike(o, u + t, rest)
  {
    hide Consumed, Options, Remaining, Wants, Letters, Cluster, Taken;
    OptionFirst(o, u, t);
    OptionFirst(o, u, Consumed(o, t) + rest);
    assert (u + Consumed(o, t)) + rest == u + (Consumed(o, t) + rest);
  }

  /** Scanning the permuted arguments again gives the same reports and leaves the same operands. */
  lemma {:induction false} PermutedScansTheSame(o: string, s: seq<string>, rest: seq<string>)
    requires Unbroken(o, s) && forall i :: 0 <= i < |rest| ==> IsNonOption(rest[i])
    ensures ScansAlike(o, s, rest)
    decreases |s|
  {
    if s == [] {
      assert Consumed(o, s) + rest == rest;
      OnlyNonOptions(o, rest);
    } else if IsNonOption(s[0]) {
      PermutedScansTheSame(o, s[1..], rest);
    } else {
      var k := Taken(o, s);
      PermutedScansTheSame(o, s[k..], rest);
      OptionAgain(o, s[..k], s[k..], rest);
      assert s == s[..k] + s[k..];
      hide ScansAlike, Wants, Cluster;
    }
  }

  lemma {:induction false} OnlyNonOptions(o: string, s: seq<string>)
    requires forall i :: 0 <= i < |s| ==> IsNonOption(s[i])
    ensures Consumed(o, s) == [] && Options(o, s) == [] && Remaining(o, s) == s
    decreases |s|
  {
    if s != [] {
      OnlyNonOptions(o, s[1..]);
    }
  }

  // ----- exchange

  /** The len elements at p and the len elements at q swapped. */
  function Swapped<T>(s: seq<T>, p: nat, q: nat, len: nat): (r: seq<T>)
    requires p + len <= q && q + len <= |s|
    ensures |r| == |s|
  {
    seq(|s|, k requires 0 <= k < |s| =>
      if p <= k < p + len then s[k - p + q] else if q <= k < q + len then s[k - q + p] else s[k])
  }

  /** Swap the len elements at p with the len elements at q, in the loop the source has in both branches. */
  method SwapBlocks<T>(a: array<T>, p: nat, q: nat, len: nat)
    requires p + len <= q && q + len <= a.Length
    modifies a
    ensures a[..] == Swapped(old(a[..]), p, q, len)
  {
    for i := 0 to len
      invariant forall k :: p <= k < p + i ==> a[k] == old(a[..])[k - p + q]
      invariant forall k :: q <= k < q + i ==> a[k] == old(a[..])[k - q + p]
      invariant forall k :: 0 <= k < a.Length && !(p <= k < p + i) && !(q <= k < q + i) ==> a[k] == old(a[k])
    {
      a[p + i], a[q + i] := a[q + i], a[p + i];
    }
  }

  /** The blocks s[from..mid] and s[mid..to] exchanged. */
  function Rotated<T>(s: seq<T>, from: nat, mid: nat, to: nat): (r: seq<T>)
    requires from <= mid <= to <= |s|
    ensures |r| == |s|
  {
    seq(|s|, k requires 0 <= k < |s| =>
      if from <= k < from + (to - mid) then s[k - from + mid]
      else if from + (to - mid) <= k < to then s[k - (to - mid)]
      else s[k])
  }

  lemma RotatedBlocks<T>(s: seq<T>, from: nat, mid: nat, to: nat)
    requires from <= mid <= to <= |s|
    ensures Rotated(s, from, mid, to) == s[..from] + s[mid..to] + s[from..mid] + s[to..]
  {}

  /** Swapping the short first block with the end of the second leaves a smaller exchange. */
  lemma BottomShort<T>(s: seq<T>, t: seq<T>, from: nat, mid: nat, to: nat)
    requires from <= mid <= to <= |s| && mid - from <= to - mid
    requires t == Swapped(s, from, to - (mid - from), mid - from)
    ensures Rotated(t, from, mid, to - (mid - from)) == Rotated(s, from, mid, to)
  {}

  /** Swapping the short second block with the start of the first leaves a smaller exchange. */
  lemma TopShort<T>(s: seq<T>, t: seq<T>, from: nat, mid: nat, to: nat)
    requires from <= mid <= to <= |s| && to - mid <= mid - from
    requires t == Swapped(s, from, mid, to - mid)
    ensures Rotated(t, from + (to - mid), mid, to) == Rotated(s, from, mid, to)
  {}

  lemma RotatedEmpty<T>(s: seq<T>, from: nat, mid: nat, to: nat)
    requires from <= mid <= to <= |s| && (from == mid || mid == to)
    ensures Rotated(s, from, mid, to) == s
  {}

  /** The branch for a short first block: it goes to the far end, and what is left to exchange ends before it. */
  method MoveBottom<T>(a: array<T>, bottom: nat, mid: nat, top: nat)
    requires bottom <= mid <= top <= a.Length && mid - bottom <= top - mid
    modifies a
    ensures Rotated(a[..], bottom, mid, top - (mid - bottom)) == Rotated(old(a[..]), bottom, mid, top)
  {
    hide Rotated, Swapped;
    ghost var s := a[..];
    SwapBlocks(a, bottom, top - (mid - bottom), mid - bottom);
    BottomShort(s, a[..], bottom, mid, top);
  }

  /** The branch for a short second block: it goes to the front, and what is left to exchange starts after it. */
  method MoveTop<T>(a: array<T>, bottom: nat, mid: nat, top: nat)
    requires bottom <= mid <= top <= a.Length && top - mid <= mid - bottom
    modifies a
    ensures Rotated(a[..], bottom + (top - mid), mid, top) == Rotated(old(a[..]), bottom, mid, top)
  {
    hide Rotated, Swapped;
    ghost var s := a[..];
    SwapBlocks(a, bottom, mid, top - mid);
    TopShort(s, a[..], bottom, mid, top);
  }

  /** The loop of exchange: whichever block is shorter goes to its place, until one of them is empty. */
  method RotateBlocks<T>(a: array<T>, from: nat, mid: nat, to: nat)
    requires from <= mid <= to <= a.Length
    modifies a
    ensures a[..] == Rotated(old(a[..]), from, mid, to)
  {
    hide Rotated;
    var bottom, top := from, to;
    ghost var goal := Rotated(a[..], from, mid, to);
    while top > mid && mid > bottom
      invariant 0 <= bottom <= mid <= top <= a.Length
      invariant Rotated(a[..], bottom, mid, top) == goal
      decreases top - bottom
    {
      if top - mid > mid - bottom {
        MoveBottom(a, bottom, mid, top);
        top := top - (mid - bottom);
      } else {
        MoveTop(a, bottom, mid, top);
        bottom := bottom + (top - mid);
      }
    }
    RotatedEmpty(a[..], bottom, mid, top);
  }

  // ----- what the scan keeps

  /**
   What argv will be at the end of the scan: a[first..last] are non-options skipped so far,
   a[last..next] the elements used up since, and a[next..] is still to be scanned.
   */
  function Outcome(o: string, a: seq<string>, first: nat, last: nat, next: nat): seq<string>
    requires first <= last <= next <= |a|
  {
    a[..first] + a[last..next] + Consumed(o, a[next..]) + a[first..last] + Remaining(o, a[next..])
  }

  /** Where the elements left to the caller will begin. */
  function FirstOperand(o: string, a: seq<string>, first: nat, last: nat, next: nat): nat
    requires first <= last <= next <= |a|
  {
    first + (next - last) + |Consumed(o, a[next..])|
  }

  lemma ExchangeKeeps(o: string, a: seq<string>, first: nat, last: nat, next: nat)
    requires first <= last <= next <= |a|
    ensures
      var b := Rotated(a, first, last, next);
      && b[next..] == a[next..]
      && Outcome(o, b, first + (next - last), next, next) == Outcome(o, a, first, last, next)
      && FirstOperand(o, b, first + (next - last), next, next) == FirstOperand(o, a, first, last, next)
  {
    var b := Rotated(a, first, last, next);
    var mid := first + (next - last);
    assert b[next..] == a[next..];
    assert b[..mid] == a[..first] + a[last..next];
    assert b[mid..next] == a[first..last];
    hide Consumed, Remaining, Rotated;
  }

  /** Without skipped non-options there is nothing to exchange. */
  lemma NothingSkipped(o: string, a: seq<string>, first: nat, next: nat)
    requires first <= next <= |a|
    ensures Outcome(o, a, next, next, next) == Outcome(o, a, first, first, next)
    ensures FirstOperand(o, a, next, next, next) == FirstOperand(o, a, first, first, next)
  {
    assert a[..first] + a[first..next] == a[..next];
    hide Consumed, Remaining;
  }

  lemma SkipKeeps(o: string, a: seq<string>, first: nat, next: nat)
    requires first <= next < |a| && IsNonOption(a[next])
    ensures Outcome(o, a, first, next + 1, next + 1) == Outcome(o, a, first, next, next)
    ensures FirstOperand(o, a, first, next + 1, next + 1) == FirstOperand(o, a, first, next, next)
    ensures Options(o, a[next..]) == Options(o, a[next + 1..])
  {
    assert a[next..] == [a[next]] + a[next + 1..];
    assert a[next..][1..] == a[next + 1..];
    assert a[first..next + 1] == a[first..next] + [a[next]];
  }

  lemma OptionKeeps(o: string, a: seq<string>, first: nat, next: nat)
    requires first <= next < |a| && IsOption(a[next])
    ensures
      var k := Taken(o, a[next..]);
      && Outcome(o, a, first, next, next + k) == Outcome(o, a, first, next, next)
      && FirstOperand(o, a, first, next, next + k) == FirstOperand(o, a, first, next, next)
  {
    var s, k := a[next..], Taken(o, a[next..]);
    assert s[0] == a[next] && s[..k] == a[next..next + k] && s[k..] == a[next + k..];
    OptionConsumed(o, s);
    hide Consumed, Remaining, Taken, IsOption;
    OptionMoves(a, first, next, k, Consumed(o, s[k..]), Remaining(o, s));
  }

  lemma OptionMoves(a: seq<string>, first: nat, next: nat, k: nat, c: seq<string>, r: seq<string>)
    requires first <= next && next + k <= |a|
    ensures a[..first] + a[next..next + k] + c + a[first..next] + r
      == a[..first] + a[next..next] + (a[next..next + k] + c) + a[first..next] + r
  {}

  lemma OptionConsumed(o: string, s: seq<string>)
    requires s != [] && IsOption(s[0])
    ensures Consumed(o, s) == s[..Taken(o, s)] + Consumed(o, s[Taken(o, s)..])
    ensures Remaining(o, s) == Remaining(o, s[Taken(o, s)..])
  {}

  /** At `--` the outcome is reached by moving it in front of the skipped non-options. */
  lemma DashDashEnds(o: string, a: seq<string>, first: nat, next: nat)
    requires first <= next < |a| && a[next] == "--"
    ensures Outcome(o, a, first, next, next) == Rotated(a, first, next, next + 1)
    ensures FirstOperand(o, a, first, next, next) == first + 1
    ensures Options(o, a[next..]) == []
  {
    RotatedBlocks(a, first, next, next + 1);
    assert a[next..next + 1] == [a[next]];
    assert a[next..][1..] == a[next + 1..];
    hide Rotated;
  }

  lemma AllScanned(o: string, a: seq<string>, first: nat)
    requires first <= |a|
    ensures Outcome(o, a, first, |a|, |a|) == a && FirstOperand(o, a, first, |a|, |a|) == first
    ensures Options(o, a[|a|..]) == []
  {
    assert a[..first] + a[first..] == a;
  }

  lemma AtTheStart(o: string, a: seq<string>)
    requires |a| >= 1
    ensures Outcome(o, a, 1, 1, 1) == [a[0]] + Consumed(o, a[1..]) + Remaining(o, a[1..])
    ensures FirstOperand(o, a, 1, 1, 1) == 1 + |Consumed(o, a[1..])|
  {
    assert a[..1] == [a[0]];
    hide Consumed, Remaining;
  }

  // ----- the letters of one element

  /** What is to be reported behind the element at next. */
  function Behind(o: string, a: seq<string>, next: nat): seq<Found>
    requires next < |a|
  {
    Options(o, a[next + Taken(o, a[next..])..])
  }

  /** What is still to be reported inside an element at next, from cluster on, and behind it. */
  function Rest(o: string, a: seq<string>, next: nat, cluster: string): seq<Found>
    requires next < |a|
  {
    Letters(o, cluster, a[next + 1..]) + Behind(o, a, next)
  }

  /** The reports still to come at next, in the middle of an element if letters of it are left. */
  function ToCome(o: string, a: seq<string>, next: nat, letters: string): seq<Found>
    requires if letters == "" then next <= |a| else next < |a|
  {
    if letters == "" then Options(o, a[next..]) else Rest(o, a, next, letters)
  }

  lemma ElementStarts(o: string, a: seq<string>, next: nat)
    requires next < |a| && IsOption(a[next])
    ensures Options(o, a[next..]) == Rest(o, a, next, Cluster(a[next]))
  {
    var s := a[next..];
    assert s[0] == a[next] && s[1..] == a[next + 1..];
    assert s[Taken(o, s)..] == a[next + Taken(o, s)..];
    hide Letters, Taken, Cluster;
  }

  lemma Neutral<T>(a: seq<T>)
    ensures [] + a == a
  {}

  /** A letter without an argument. */
  lemma PlainLetter(o: string, a: seq<string>, next: nat, cluster: string, f: Found)
    requires next < |a| && cluster != "" && Wants(o, cluster) == Wants(o, Cluster(a[next]))
    requires KindOf(o, cluster[0]).Unknown? || KindOf(o, cluster[0]).Plain?
    requires f == if KindOf(o, cluster[0]).Plain? then Found(cluster[0], Nothing) else Invalid(cluster[0])
    ensures Wants(o, cluster[1..]) == Wants(o, Cluster(a[next]))
    ensures |cluster| == 1 ==> Taken(o, a[next..]) == 1
    ensures Rest(o, a, next, cluster)
      == [f] + ToCome(o, a, if |cluster| == 1 then next + 1 else next, cluster[1..])
  {
    var n := if |cluster| == 1 then next + 1 else next;
    PlainOnce(o, cluster, a[next + 1..], f);
    AfterPlain(o, a, next, cluster[1..]);
    RestIs(o, a, next, cluster);
    hide *;
    Regroup([f], Letters(o, cluster[1..], a[next + 1..]), Behind(o, a, next),
            Letters(o, cluster, a[next + 1..]), ToCome(o, a, n, cluster[1..]), Rest(o, a, next, cluster));
  }

  lemma RestIs(o: string, a: seq<string>, next: nat, cluster: string)
    requires next < |a|
    ensures Rest(o, a, next, cluster) == Letters(o, cluster, a[next + 1..]) + Behind(o, a, next)
  {}

  lemma Regroup<T>(x: seq<T>, y: seq<T>, z: seq<T>, xy: seq<T>, yz: seq<T>, all: seq<T>)
    requires xy == x + y && yz == y + z && all == xy + z
    ensures all == x + yz
  {}

  /** When the letters of an element end without an argument taken, the next element is the one behind it. */
  lemma AfterPlain(o: string, a: seq<string>, next: nat, rest: string)
    requires next < |a| && Wants(o, rest) == Wants(o, Cluster(a[next]))
    ensures rest == "" ==> Taken(o, a[next..]) == 1
    ensures ToCome(o, a, if rest == "" then next + 1 else next, rest)
      == Letters(o, rest, a[next + 1..]) + Behind(o, a, next)
  {
    hide Options, Cluster;
    if rest == "" {
      Neutral(Behind(o, a, next));
    }
  }

  lemma PlainOnce(o: string, cluster: string, next: seq<string>, f: Found)
    requires cluster != "" && (KindOf(o, cluster[0]).Unknown? || KindOf(o, cluster[0]).Plain?)
    requires f == if KindOf(o, cluster[0]).Plain? then Found(cluster[0], Nothing) else Invalid(cluster[0])
    ensures Letters(o, cluster, next) == [f] + Letters(o, cluster[1..], next)
    ensures Wants(o, cluster) == Wants(o, cluster[1..])
    ensures |cluster| == 1 ==> !Wants(o, cluster) && Letters(o, cluster[1..], next) == []
  {
    hide KindOf;
  }

  /** A letter that ends its element, with the rest of it as its argument, or with none. */
  lemma LastLetter(o: string, a: seq<string>, next: nat, cluster: string)
    requires next < |a| && cluster != "" && Wants(o, cluster) == Wants(o, Cluster(a[next]))
    requires KindOf(o, cluster[0]).Optional? || (KindOf(o, cluster[0]).Required? && |cluster| > 1)
    ensures Taken(o, a[next..]) == 1
    ensures Rest(o, a, next, cluster)
      == [Found(cluster[0], if |cluster| == 1 then Nothing else Text(cluster[1..]))] + ToCome(o, a, next + 1, "")
  {
    hide KindOf, Options, Cluster;
  }

  /** A letter that needs the next element for its argument. */
  lemma WantingLetter(o: string, a: seq<string>, next: nat, cluster: string)
    requires next < |a| && cluster != "" && Wants(o, cluster) == Wants(o, Cluster(a[next]))
    requires KindOf(o, cluster[0]).Required? && |cluster| == 1
    ensures Taken(o, a[next..]) == if next + 1 == |a| then 1 else 2
    ensures next + 1 == |a| ==> Rest(o, a, next, cluster) == [Missing(cluster[0])] + ToCome(o, a, next + 1, "")
    ensures next + 1 < |a| ==>
      Rest(o, a, next, cluster) == [Found(cluster[0], Text(a[next + 1]))] + ToCome(o, a, next + 2, "")
  {
    hide KindOf, Options, Cluster;
  }

  /** What decoding one letter reports, and the element and the letters to go on with. */
  function Decoded(o: string, a: seq<string>, next: nat, cluster: string): (Found, nat, string)
    requires next < |a| && cluster != ""
  {
    var c, rest := cluster[0], cluster[1..];
    var after := if rest == "" then next + 1 else next;
    match KindOf(o, c)
    case Unknown => (Invalid(c), after, rest)
    case Plain => (Found(c, Nothing), after, rest)
    case Optional => (Found(c, if rest == "" then Nothing else Text(rest)), next + 1, "")
    case Required =>
      if rest != "" then (Found(c, Text(rest)), next + 1, "")
      else if next + 1 == |a| then (Missing(c), next + 1, "")
      else (Found(c, Text(a[next + 1])), next + 2, "")
  }

  /** It makes the next report, and moves on to the next element exactly when this one has no letters left. */
  lemma DecodedReports(o: string, a: seq<string>, next: nat, cluster: string)
    requires next < |a| && cluster != "" && Wants(o, cluster) == Wants(o, Cluster(a[next]))
    ensures
      var (f, n, rest) := Decoded(o, a, next, cluster);
      && !f.End? && n == (if rest == "" then next + Taken(o, a[next..]) else next)
      && (rest != "" ==> rest == cluster[1..] && Wants(o, rest) == Wants(o, Cluster(a[next])))
      && Rest(o, a, next, cluster) == [f] + ToCome(o, a, n, rest)
  {
    hide Rest, ToCome, KindOf, Wants, Taken, Cluster;
    match KindOf(o, cluster[0])
    case Unknown => PlainLetter(o, a, next, cluster, Invalid(cluster[0]));
    case Plain => PlainLetter(o, a, next, cluster, Found(cluster[0], Nothing));
    case Optional => LastLetter(o, a, next, cluster);
    case Required =>
      if |cluster| > 1 {
        LastLetter(o, a, next, cluster);
      } else {
        WantingLetter(o, a, next, cluster);
      }
  }

  /** So it keeps what the scan will end with. */
  lemma DecodedKeeps(o: string, a: seq<string>, first: nat, next: nat, cluster: string)
    requires first <= next < |a| && IsOption(a[next]) && cluster != ""
    requires Wants(o, cluster) == Wants(o, Cluster(a[next]))
    ensures
      var (f, n, rest) := Decoded(o, a, next, cluster);
      && !f.End? && next <= n <= |a|
      && Outcome(o, a, first, next, n) == Outcome(o, a, first, next, next)
      && FirstOperand(o, a, first, next, n) == FirstOperand(o, a, first, next, next)
      && (rest != "" ==> n == next && rest == cluster[1..] && Wants(o, rest) == Wants(o, Cluster(a[next])))
      && Rest(o, a, next, cluster) == [f] + ToCome(o, a, n, rest)
  {
    hide *;
    OptionKeeps(o, a, first, next);
    DecodedReports(o, a, next, cluster);
  }

  // ----- the scanner

  class Scanner {
    const argv: array<string>
    const optstring: string
    var optind: nat
    var nextchar: string
    var firstNonopt: nat
    var lastNonopt: nat

    /** Between elements the caller may move optind back; the next call then forgets what lies behind it. */
    ghost predicate Valid()
      reads this, argv
    {
      && 1 <= firstNonopt <= lastNonopt <= argv.Length && 1 <= optind <= argv.Length
      && Supported(optstring) && (nextchar != "" ==> Inside())
    }

    /** nextchar is the end of the element at optind, from which no letter before it took an argument. */
    ghost predicate Inside()
      reads this, argv
    {
      && lastNonopt == optind < argv.Length && IsOption(argv[optind])
      && |nextchar| < |argv[optind]| && argv[optind][|argv[optind]| - |nextchar|..] == nextchar
      && Wants(optstring, nextchar) == Wants(optstring, Cluster(argv[optind]))
    }

    ghost function First(): nat
      reads this
    {
      if firstNonopt > optind then optind else firstNonopt
    }

    ghost function Last(): nat
      reads this
    {
      if lastNonopt > optind then optind else lastNonopt
    }

    ghost function Goal(): seq<string>
      reads this, argv
      requires Valid()
    {
      Outcome(optstring, argv[..], First(), Last(), optind)
    }

    ghost function GoalIndex(): nat
      reads this, argv
      requires Valid()
    {
      FirstOperand(optstring, argv[..], First(), Last(), optind)
    }

    /** The reports still to come. */
    ghost function Pending(): seq<Found>
      reads this, argv
      requires Valid()
    {
      ToCome(optstring, argv[..], optind, nextchar)
    }

    /** _getopt_initialize, on the first call, for an option string that leaves the ordering to permutation */
    constructor (argv: array<string>, optstring: string)
      requires argv.Length >= 1 && Supported(optstring)
      ensures Valid() && this.argv == argv && this.optstring == optstring
      ensures optind == 1 && firstNonopt == 1 && lastNonopt == 1 && nextchar == ""
    {
      this.argv, this.optstring := argv, optstring;
      optind, firstNonopt, lastNonopt := 1, 1, 1;
      nextchar := "";
    }

    method Exchange()
      requires firstNonopt <= lastNonopt <= optind <= argv.Length
      modifies this`firstNonopt, this`lastNonopt, argv
      ensures argv[..] == Rotated(old(argv[..]), old(firstNonopt), old(lastNonopt), optind)
      ensures firstNonopt == old(firstNonopt) + (optind - old(lastNonopt)) && lastNonopt == optind
    {
      RotateBlocks(argv, firstNonopt, lastNonopt, optind);
      firstNonopt := firstNonopt + (optind - lastNonopt);
      lastNonopt := optind;
    }

    /** Before an element: options found behind non-options are moved in front of them, and more non-options skipped. */
    method Settle()
      requires Valid() && nextchar == ""
      modifies this`optind, this`firstNonopt, this`lastNonopt, argv
      ensures Valid() && lastNonopt == optind
      ensures optind < argv.Length ==> !IsNonOption(argv[optind])
      ensures Goal() == old(Goal()) && GoalIndex() == old(GoalIndex()) && Pending() == old(Pending())
    {
      hide Outcome, FirstOperand, Options, Rotated, IsNonOption, Supported;
      if lastNonopt > optind {
        lastNonopt := optind;
      }
      if firstNonopt > optind {
        firstNonopt := optind;
      }
      if firstNonopt != lastNonopt && lastNonopt != optind {
        ExchangeKeeps(optstring, argv[..], firstNonopt, lastNonopt, optind);
        Exchange();
      } else if lastNonopt != optind {
        NothingSkipped(optstring, argv[..], firstNonopt, optind);
        firstNonopt := optind;
      }
      ghost var a, goal, index, pending := argv[..], old(Goal()), old(GoalIndex()), old(Pending());
      while optind < argv.Length && IsNonOption(argv[optind])
        invariant a == argv[..]
        invariant 1 <= firstNonopt <= optind <= |a|
        invariant Outcome(optstring, a, firstNonopt, optind, optind) == goal
        invariant FirstOperand(optstring, a, firstNonopt, optind, optind) == index
        invariant Options(optstring, a[optind..]) == pending
      {
        SkipKeeps(optstring, a, firstNonopt, optind);
        optind := optind + 1;
      }
      lastNonopt := optind;
    }

    /** The end of the scan, at `--` or behind the last element: argv is in its final order. */
    method Finish()
      requires Valid() && nextchar == "" && lastNonopt == optind
      requires optind < argv.Length ==> argv[optind] == "--"
      modifies this`optind, this`firstNonopt, this`lastNonopt, argv
      ensures Valid() && old(Pending()) == [] && argv[..] == old(Goal()) && optind == old(GoalIndex())
    {
      hide Outcome, FirstOperand, Options, Rotated, Supported;
      ghost var a := argv[..];
      if optind != argv.Length {
        DashDashEnds(optstring, a, firstNonopt, optind);
        if firstNonopt == optind {
          RotatedEmpty(a, optind, optind, optind + 1);
        }
        optind := optind + 1;
        if firstNonopt != lastNonopt && lastNonopt != optind {
          Exchange();
        } else if firstNonopt == lastNonopt {
          firstNonopt := optind;
        }
        lastNonopt := argv.Length;
        optind := argv.Length;
      } else {
        AllScanned(optstring, a, firstNonopt);
      }
      if firstNonopt != lastNonopt {
        optind := firstNonopt;
      }
    }

    /** The next letter of an element, and its argument. */
    method Decode() returns (found: Found)
      requires Valid() && nextchar != ""
      modifies this`optind, this`nextchar
      ensures Valid() && !found.End?
      ensures [found] + Pending() == old(Pending()) && Goal() == old(Goal()) && GoalIndex() == old(GoalIndex())
    {
      hide Outcome, FirstOperand, Options, Rest, KindOf, Wants, IsOption, Supported, IndexOf, Cluster, Decoded;
      DecodedKeeps(optstring, argv[..], firstNonopt, optind, nextchar);
      found := DecodeLetter();
    }

    /** The part of the function behind the test for long options. */
    method DecodeLetter() returns (found: Found)
      requires optind < argv.Length && nextchar != ""
      modifies this`optind, this`nextchar
      ensures (found, optind, nextchar) == Decoded(optstring, argv[..], old(optind), old(nextchar))
    {
      hide IndexOf;
      var c := nextchar[0];
      nextchar := nextchar[1..];
      var i := MyIndex(optstring, c);
      if nextchar == "" {
        optind := optind + 1;
      }
      match KindAt(optstring, i, c)
      case Unknown =>
        found := Invalid(c);
      case Plain =>
        found := Found(c, Nothing);
      case Optional =>
        if nextchar != "" {
          found := Found(c, Text(nextchar));
          optind := optind + 1;
        } else {
          found := Found(c, Nothing);
        }
        nextchar := "";
      case Required =>
        if nextchar != "" {
          found := Found(c, Text(nextchar));
          optind := optind + 1;
        } else if optind == argv.Length {
          found := Missing(c);
        } else {
          found := Found(c, Text(argv[optind]));
          optind := optind + 1;
        }
        nextchar := "";
    }

    /**
     One call. It either makes the next pending report and keeps what the scan will end with, or there is none,
     argv is in its final order and optind is at the first element left over.
     */
    method Next() returns (found: Found)
      requires Valid()
      modifies this, argv
      ensures Valid()
      ensures found.End? <==> old(Pending()) == []
      ensures found.End? ==> argv[..] == old(Goal()) && optind == old(GoalIndex())
      ensures !found.End? ==>
        [found] + Pending() == old(Pending()) && Goal() == old(Goal()) && GoalIndex() == old(GoalIndex())
    {
      hide Outcome, FirstOperand, Options, Rest, Wants, IsNonOption, Supported;
      if nextchar == "" {
        Settle();
        if optind == argv.Length || argv[optind] == "--" {
          Finish();
          return End;
        }
        ElementStarts(optstring, argv[..], optind);
        OptionLetters(argv[optind]);
        nextchar := argv[optind][1..];
      }
      found := Decode();
    }
  }

  lemma OptionLetters(text: string)
    requires !IsNonOption(text)
    ensures |text| >= 2 && Cluster(text) == text[1..]
  {}

  /**
   A whole scan. The letters and their arguments are reported in their order; argv becomes the program name, the
   elements used up in their original order, and then the non-options and everything behind `--` in their original
   order; optind is where those begin.
   */
  method Scan(argv: array<string>, optstring: string) returns (options: seq<Found>, optind: nat)
    requires argv.Length >= 1 && Supported(optstring)
    modifies argv
    ensures options == Options(optstring, old(argv[1..]))
    ensures argv[..] == [old(argv[0])] + Consumed(optstring, old(argv[1..])) + Remaining(optstring, old(argv[1..]))
    ensures optind == 1 + |Consumed(optstring, old(argv[1..]))|
  {
    hide Consumed, Remaining, Options, Outcome, FirstOperand, Rest, Supported, Wants;
    var scanner := new Scanner(argv, optstring);
    ghost var a, all := argv[..], Options(optstring, argv[1..]);
    AtTheStart(optstring, a);
    assert scanner.First() == 1 && scanner.Last() == 1;
    assert a[1..] == argv[1..];
    ghost var goal, index := Outcome(optstring, a, 1, 1, 1), FirstOperand(optstring, a, 1, 1, 1);
    options := [];
    var found := scanner.Next();
    while !found.End?
      invariant scanner.Valid() && scanner.argv == argv && scanner.optstring == optstring && fresh(scanner)
      invariant found.End? ==> argv[..] == goal && scanner.optind == index && options == all
      invariant !found.End? ==> scanner.Goal() == goal && scanner.GoalIndex() == index
      invariant !found.End? ==> options + [found] + scanner.Pending() == all
      decreases if found.End? then 0 else 1 + |scanner.Pending()|
    {
      options := options + [found];
      found := scanner.Next();
    }
    optind := scanner.optind;
  }
}
