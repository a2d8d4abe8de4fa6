/**
 What a user may write on the command line and what it means: the option
 string read by its shape, the forms of options with their arguments, and the
 proof that the scan reads every argument list back as it was written.
 */
module GetoptGrammar {
  import opened Getopt

  // ----- the option string

  /** How many colons stand at the beginning, two at most. */
  function Colons(v: string): (n: nat)
    ensures n <= 2
  {
    if v == "" || v[0] != ':' then 0 else if |v| == 1 || v[1] != ':' then 1 else 2
  }

  lemma FirstPlace(u: string, c: char, v: string)
    requires c !in u
    ensures IndexOf(u + [c] + v, c) == |u|
  {
    var o := u + [c] + v;
    hide IndexOf;
    assert o[|u|] == c;
    assert forall k :: 0 <= k < |u| ==> o[k] == u[k] && o[k] != c;
  }

  /**
   A letter takes no argument, must have one or may have one, as no colon, exactly one, or two follow its first place
   in the option string. It is invalid exactly when it does not occur, or is the colon itself.
   */
  lemma KindByColons(o: string, u: string, c: char, v: string)
    requires o == u + [c] + v && c !in u && c != ':'
    ensures KindOf(o, c).Plain? <==> Colons(v) == 0
    ensures KindOf(o, c).Required? <==> Colons(v) == 1
    ensures KindOf(o, c).Optional? <==> Colons(v) == 2
  {
    FirstPlace(u, c, v);
    assert forall k :: 0 <= k < |v| ==> o[|u| + 1 + k] == v[k];
    hide IndexOf;
  }

  lemma UnknownExactly(o: string, c: char)
    ensures KindOf(o, c).Unknown? <==> c !in o || c == ':'
  {
    hide IndexOf;
    if IndexOf(o, c) < |o| {
      assert o[IndexOf(o, c)] in o;
    }
  }

  // ----- what may be written

  datatype Use = Alone | Joined(text: string) | Next(text: string)

  /** An operand, or an element of option letters, the last of which may have an argument. */
  datatype Item = Operand(text: string) | Option(flags: string, last: char, use: Use)

  /** How the arguments end: just so, with a `--` before more operands, or with an option that lacks its argument. */
  datatype Ending = Nowhere | Dashes(rest: seq<string>) | Lacking(flags: string, last: char)

  function Written(i: Item): seq<string> {
    match i
    case Operand(t) => [t]
    case Option(flags, last, Alone) => ["-" + flags + [last]]
    case Option(flags, last, Joined(t)) => ["-" + flags + [last] + t]
    case Option(flags, last, Next(t)) => ["-" + flags + [last], t]
  }

  /** No letter among them takes an argument. */
  predicate AllFlags(o: string, flags: string) {
    forall i :: 0 <= i < |flags| ==> KindOf(o, flags[i]).Plain? || KindOf(o, flags[i]).Unknown?
  }

  /** The item may be written so under the option string. */
  predicate Fits(o: string, i: Item) {
    match i
    case Operand(t) => |t| < 2 || t[0] != '-'
    case Option(flags, last, use) =>
      && AllFlags(o, flags) && Written(i)[0] != "--"
      && match use
         case Alone => !KindOf(o, last).Required?
         case Joined(t) => t != "" && (KindOf(o, last).Required? || KindOf(o, last).Optional?)
         case Next(_) => KindOf(o, last).Required?
  }

  predicate EndFits(o: string, e: Ending) {
    e.Lacking? ==> AllFlags(o, e.flags) && KindOf(o, e.last).Required? && "-" + e.flags + [e.last] != "--"
  }

  /** What is reported of a letter without an argument. */
  function Flag(o: string, c: char): Found { if KindOf(o, c).Unknown? then Invalid(c) else Found(c, Nothing) }

  function Flags(o: string, flags: string): (r: seq<Found>)
    ensures |r| == |flags|
  {
    seq(|flags|, i requires 0 <= i < |flags| => Flag(o, flags[i]))
  }

  /** What an item means. */
  function Meaning(o: string, i: Item): seq<Found> {
    match i
    case Operand(_) => []
    case Option(flags, last, Alone) => Flags(o, flags) + [Flag(o, last)]
    case Option(flags, last, use) => Flags(o, flags) + [Found(last, Text(use.text))]
  }

  function Elements(items: seq<Item>): seq<string> {
    if items == [] then [] else Written(items[0]) + Elements(items[1..])
  }

  function Meanings(o: string, items: seq<Item>): seq<Found> {
    if items == [] then [] else Meaning(o, items[0]) + Meanings(o, items[1..])
  }

  function Operands(items: seq<Item>): seq<string> {
    if items == [] then [] else (if items[0].Operand? then Written(items[0]) else []) + Operands(items[1..])
  }

  function OptionElements(items: seq<Item>): seq<string> {
    if items == [] then [] else (if items[0].Option? then Written(items[0]) else []) + OptionElements(items[1..])
  }

  function EndElements(e: Ending): seq<string> {
    match e
    case Nowhere => []
    case Dashes(rest) => ["--"] + rest
    case Lacking(flags, last) => ["-" + flags + [last]]
  }

  function EndMeaning(o: string, e: Ending): seq<Found> {
    if e.Lacking? then Flags(o, e.flags) + [Missing(e.last)] else []
  }

  /** The elements of the ending that are used up, and those left over. */
  function EndConsumed(e: Ending): seq<string> {
    match e
    case Nowhere => []
    case Dashes(_) => ["--"]
    case Lacking(flags, last) => ["-" + flags + [last]]
  }

  function EndOperands(e: Ending): seq<string> { if e.Dashes? then e.rest else [] }

  predicate AllFit(o: string, items: seq<Item>) { forall i :: 0 <= i < |items| ==> Fits(o, items[i]) }

  // ----- clusters

  /** Letters without arguments come first, whatever follows them. */
  lemma {:induction false} FlagsFirst(o: string, flags: string, tail: string, next: seq<string>)
    requires AllFlags(o, flags)
    ensures Letters(o, flags + tail, next) == Flags(o, flags) + Letters(o, tail, next)
    ensures Wants(o, flags + tail) == Wants(o, tail)
    decreases |flags|
  {
    if flags == "" {
      assert flags + tail == tail;
      Neutral(Letters(o, tail, next));
    } else {
      var more, f := flags[1..], Flag(o, flags[0]);
      assert (flags + tail)[0] == flags[0] && (flags + tail)[1..] == more + tail;
      FirstFlag(o, flags);
      hide *;
      FlagsFirst(o, more, tail, next);
      PlainOnce(o, flags + tail, next, f);
      Regroup([f], Flags(o, more), Letters(o, tail, next),
              Flags(o, flags), Letters(o, more + tail, next), Flags(o, flags) + Letters(o, tail, next));
    }
  }

  lemma FirstFlag(o: string, flags: string)
    requires flags != "" && AllFlags(o, flags)
    ensures KindOf(o, flags[0]).Plain? || KindOf(o, flags[0]).Unknown?
    ensures Flag(o, flags[0])
      == if KindOf(o, flags[0]).Plain? then Found(flags[0], Nothing) else Invalid(flags[0])
    ensures AllFlags(o, flags[1..]) && Flags(o, flags) == [Flag(o, flags[0])] + Flags(o, flags[1..])
  {
    hide KindOf;
  }

  /** The last letter of a cluster, with what follows it in the element. */
  lemma LastLetters(o: string, last: char, tail: string, next: seq<string>)
    requires KindOf(o, last).Plain? || KindOf(o, last).Unknown? ==> tail == ""
    ensures Letters(o, [last] + tail, next) ==
      [match KindOf(o, last)
       case Required => if tail != "" then Found(last, Text(tail))
                        else if next == [] then Missing(last) else Found(last, Text(next[0]))
       case Optional => Found(last, if tail == "" then Nothing else Text(tail))
       case _ => Flag(o, last)]
    ensures Wants(o, [last] + tail) == (KindOf(o, last).Required? && tail == "")
  {
    var cluster := [last] + tail;
    assert cluster[0] == last && cluster[1..] == tail;
    hide KindOf;
  }

  lemma OneElement(o: string, flags: string, last: char, tail: string, next: seq<string>)
    requires AllFlags(o, flags) && (KindOf(o, last).Plain? || KindOf(o, last).Unknown? ==> tail == "")
    ensures
      var cluster := Cluster("-" + flags + [last] + tail);
      && Letters(o, cluster, next) == Flags(o, flags) + Letters(o, [last] + tail, next)
      && Wants(o, cluster) == (KindOf(o, last).Required? && tail == "")
    ensures "-" + flags + [last] + tail != "--" ==> IsOption("-" + flags + [last] + tail)
  {
    assert ("-" + flags + [last] + tail)[1..] == flags + ([last] + tail);
    FlagsFirst(o, flags, [last] + tail, next);
    LastLetters(o, last, tail, next);
    hide Wants, Letters, KindOf, Flags, AllFlags;
  }

  // ----- reading back

  /** One item in front of any arguments. */
  lemma ItemRead(o: string, i: Item, t: seq<string>)
    requires Fits(o, i)
    ensures Options(o, Written(i) + t) == Meaning(o, i) + Options(o, t)
    ensures Consumed(o, Written(i) + t) == (if i.Option? then Written(i) else []) + Consumed(o, t)
    ensures Remaining(o, Written(i) + t) == (if i.Operand? then Written(i) else []) + Remaining(o, t)
  {
    var u := Written(i);
    if i.Operand? {
      assert (u + t)[0] == i.text && (u + t)[1..] == t;
      Neutral(Options(o, t));
      Neutral(Consumed(o, t));
    } else {
      var tail := if i.use.Joined? then i.use.text else "";
      assert u[0] == "-" + i.flags + [i.last] + tail;
      OneElement(o, i.flags, i.last, tail, u[1..]);
      LastLetters(o, i.last, tail, u[1..]);
      hide KindOf, Letters, Wants, Options, Consumed, Remaining, Taken, AllFlags;
      OptionFirst(o, u, t);
      Neutral(Remaining(o, t));
    }
  }

  lemma EndRead(o: string, e: Ending)
    requires EndFits(o, e)
    ensures Options(o, EndElements(e)) == EndMeaning(o, e)
    ensures Consumed(o, EndElements(e)) == EndConsumed(e)
    ensures Remaining(o, EndElements(e)) == EndOperands(e)
  {
    if e.Lacking? {
      var s := EndElements(e);
      assert s[0] == "-" + e.flags + [e.last] + "";
      OneElement(o, e.flags, e.last, "", []);
      LastLetters(o, e.last, "", []);
      hide KindOf, Letters, AllFlags;
      assert s[1..] == [] && Options(o, []) == [] && Consumed(o, []) == [] && Remaining(o, []) == [];
      assert Options(o, s) == Letters(o, Cluster(s[0]), []) + [];
    }
  }

  /**
   The scan reads back what is written: every option with its argument, in order, the operands that are left over, and
   the elements used up.
   */
  lemma {:induction false} ReadBack(o: string, items: seq<Item>, e: Ending)
    requires AllFit(o, items) && EndFits(o, e)
    ensures
      var s := Elements(items) + EndElements(e);
      && Options(o, s) == Meanings(o, items) + EndMeaning(o, e)
      && Consumed(o, s) == OptionElements(items) + EndConsumed(e)
      && Remaining(o, s) == Operands(items) + EndOperands(e)
    decreases |items|
  {
    hide *;
    EndRead(o, e);
    var end := EndElements(e);
    if items == [] {
      NoItems(o);
      Neutral(end);
      Neutral(EndMeaning(o, e));
      Neutral(EndConsumed(e));
      Neutral(EndOperands(e));
    } else {
      var i, more := items[0], items[1..];
      FirstItem(o, items);
      ReadBack(o, more, e);
      ItemRead(o, i, Elements(more) + end);
      Regrouped(Written(i), Elements(more), end);
      Regrouped(Meaning(o, i), Meanings(o, more), EndMeaning(o, e));
      Regrouped(if i.Option? then Written(i) else [], OptionElements(more), EndConsumed(e));
      Regrouped(if i.Operand? then Written(i) else [], Operands(more), EndOperands(e));
    }
  }

  lemma NoItems(o: string)
    ensures Elements([]) == [] && Meanings(o, []) == [] && Operands([]) == [] && OptionElements([]) == []
  {}

  lemma FirstItem(o: string, items: seq<Item>)
    requires AllFit(o, items) && items != []
    ensures Fits(o, items[0]) && AllFit(o, items[1..])
    ensures
      var i, more := items[0], items[1..];
      && Elements(items) == Written(i) + Elements(more) && Meanings(o, items) == Meaning(o, i) + Meanings(o, more)
      && Operands(items) == (if i.Operand? then Written(i) else []) + Operands(more)
      && OptionElements(items) == (if i.Option? then Written(i) else []) + OptionElements(more)
  {
    hide Fits, Written, Meaning;
  }

  lemma Regrouped<T>(x: seq<T>, y: seq<T>, z: seq<T>)
    ensures x + (y + z) == (x + y) + z
  {}

  // ----- every argument list is written in one of these ways

  /** The letters of a cluster up to the first that may have an argument, or up to the last. */
  lemma {:induction false} Split(o: string, cluster: string) returns (flags: string, last: char, tail: string)
    requires cluster != ""
    ensures cluster == flags + [last] + tail && AllFlags(o, flags)
    ensures KindOf(o, last).Plain? || KindOf(o, last).Unknown? ==> tail == ""
    decreases |cluster|
  {
    var c := cluster[0];
    hide KindOf;
    if |cluster| == 1 || KindOf(o, c).Required? || KindOf(o, c).Optional? {
      flags, last, tail := "", c, cluster[1..];
    } else {
      var more;
      more, last, tail := Split(o, cluster[1..]);
      flags := [c] + more;
      assert AllFlags(o, flags) by {
        assert forall i :: 0 < i < |flags| ==> flags[i] == more[i - 1];
      }
    }
  }

  /** The first elements of an argument list as an item, or the whole of it as an ending. */
  lemma FirstWritten(o: string, s: seq<string>) returns (i: Item, e: Ending, ended: bool, t: seq<string>)
    requires s != []
    ensures if ended then EndFits(o, e) && s == EndElements(e)
            else Fits(o, i) && |t| < |s| && s == Written(i) + t
  {
    i, e, ended, t := Operand(s[0]), Nowhere, false, s[1..];
    assert s == [s[0]] + s[1..];
    if s[0] == "--" {
      e, ended := Dashes(s[1..]), true;
    } else if !IsNonOption(s[0]) {
      var flags, last, tail := Split(o, s[0][1..]);
      assert s[0] == "-" + flags + [last] + tail;
      hide KindOf;
      if tail != "" {
        i := Option(flags, last, Joined(tail));
      } else if !KindOf(o, last).Required? {
        i := Option(flags, last, Alone);
        assert "-" + flags + [last] + tail == "-" + flags + [last];
      } else {
        assert "-" + flags + [last] + tail == "-" + flags + [last];
        if |s| == 1 {
          e, ended := Lacking(flags, last), true;
        } else {
          i, t := Option(flags, last, Next(s[1])), s[2..];
          assert s == [s[0], s[1]] + s[2..];
        }
      }
    }
  }

  /** So what a scan reports, uses up and leaves over is settled by ReadBack for every argument list. */
  lemma {:induction false} EveryArgument(o: string, s: seq<string>) returns (items: seq<Item>, e: Ending)
    ensures AllFit(o, items) && EndFits(o, e) && s == Elements(items) + EndElements(e)
    decreases |s|
  {
    hide Fits, Written, KindOf;
    if s == [] {
      items, e := [], Nowhere;
    } else {
      var i, f, ended, t := FirstWritten(o, s);
      if ended {
        items, e := [], f;
        Neutral(EndElements(f));
      } else {
        var more;
        more, e := EveryArgument(o, t);
        items := [i] + more;
        assert items[1..] == more;
        Regrouped(Written(i), Elements(more), EndElements(e));
      }
    }
  }

  // ----- one option and what follows it

  /**
   "-c" followed by another argument takes it exactly when c has one colon, whatever it looks like; otherwise that is
   scanned for itself, and an operand stays one. ("--" ends the options instead.)
   */
  lemma NextTaken(u: string, c: char, v: string, text: string)
    requires c !in u && c != ':' && c != '-'
    ensures
      var o, s := u + [c] + v, ["-" + [c], text];
      && (Colons(v) == 1 ==> Options(o, s) == [Found(c, Text(text))] && Consumed(o, s) == s && Remaining(o, s) == [])
      && (Colons(v) != 1 && IsNonOption(text) ==>
            Options(o, s) == [Found(c, Nothing)] && Consumed(o, s) == s[..1] && Remaining(o, s) == [text])
  {
    var o, s := u + [c] + v, ["-" + [c], text];
    KindByColons(o, u, c, v);
    assert "-" + "" + [c] == "-" + [c] && ("-" + [c])[1] == c;
    assert s[..1] + [] == ["-" + [c]] && s[1..] == [text];
    hide KindOf, Options, Consumed, Remaining, IndexOf;
    if Colons(v) == 1 {
      assert Flags(o, "") + [Found(c, Text(text))] == [Found(c, Text(text))];
      ItemRead(o, Option("", c, Next(text)), []);
      NothingLeft(o);
    } else if IsNonOption(text) {
      assert Flags(o, "") + [Flag(o, c)] == [Found(c, Nothing)];
      ItemRead(o, Option("", c, Alone), [text]);
      ItemRead(o, Operand(text), []);
      NothingLeft(o);
    }
  }

  lemma NothingLeft(o: string)
    ensures Options(o, []) == [] && Consumed(o, []) == [] && Remaining(o, []) == []
  {}
}
