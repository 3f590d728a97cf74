/**
  The text form of a registry: a printer and a parser of gate states, and the exact
  condition under which the parser undoes the printer.
*/
module Flag {
  import opened Text
  import opened FeatureGate

  /** One piece of the flag text that names a gate. */
  datatype Mention = Mention(name: string, enabled: bool)

  /** What one comma-free piece asks for; blank pieces ask for nothing. */
  function Resolve(piece: string): seq<Mention> {
    var gate := TrimSpace(piece);
    if gate == "" then []
    else if gate[0] == '-' then [Mention(gate[1..], false)]
    else if gate[0] == '+' then [Mention(gate[1..], true)]
    else [Mention(gate, true)]
  }

  /** All the mentions in a flag text, in order. */
  function Mentions(s: string): seq<Mention> {
    FlatMap(Resolve, Split(s, ','))
  }

  /** The states after the mentions are applied in order; unknown names are skipped. */
  function Apply(states: map<string, bool>, ms: seq<Mention>): map<string, bool> {
    if ms == [] then states
    else
      var before := Apply(states, ms[..|ms| - 1]);
      var m := ms[|ms| - 1];
      if m.name in before then before[m.name := m.enabled] else before
  }

  /** The errors collected: one for each unknown mention, in order. */
  ghost function Errors(all: set<string>, ms: seq<Mention>): seq<UnknownGate> {
    if ms == [] then []
    else
      var before := Errors(all, ms[..|ms| - 1]);
      var m := ms[|ms| - 1];
      if m.name in all then before else before + [UnknownGate(m.name, SortedNames(all))]
  }

  function GateText(name: string, enabled: bool): string {
    if enabled then name else "-" + name
  }

  function Printer(states: map<string, bool>): string -> seq<string> {
    name => if name in states then [GateText(name, states[name])] else []
  }

  /** The printed form of a set of gate states. */
  ghost function Print(states: map<string, bool>): string {
    Join(FlatMap(Printer(states), SortedNames(states.Keys)), ',')
  }

  // ------------------------------------------------------- the flag's grammar

  /**
    The grammar of one piece: white space, a sign, a name, white space. A sign decides; without
    one the gate is turned on, and then the name is not empty and does not start with a sign.
  */
  predicate Spells(piece: string, name: string, on: bool, l: string, sign: string, r: string) {
    White(l) && White(r) && piece == l + sign + name + r && Tight(sign + name, SPACES) &&
    if sign == "" then on && name != "" && name[0] != '+' && name[0] != '-'
    else sign == if on then "+" else "-"
  }

  /** The piece asks for this gate in this state. */
  ghost predicate Orders(piece: string, name: string, on: bool) {
    exists l, sign, r :: Spells(piece, name, on, l, sign, r)
  }

  ghost predicate Names(piece: string, name: string) {
    exists on :: Orders(piece, name, on)
  }

  /** Piece i is the last that names the gate. */
  ghost predicate LastOrder(pieces: seq<string>, i: nat, name: string, on: bool) {
    i < |pieces| && Orders(pieces[i], name, on) && forall j :: i < j < |pieces| ==> !Names(pieces[j], name)
  }

  /** One error for each piece that names a gate there is not, in the order of the pieces, and no other. */
  ghost predicate Complaints(pieces: seq<string>, all: set<string>, errs: seq<UnknownGate>) {
    if pieces == [] then errs == []
    else
      var front, last := pieces[..|pieces| - 1], pieces[|pieces| - 1];
      if exists name :: Names(last, name) && name !in all then
        errs != [] && Complaints(front, all, errs[..|errs| - 1]) &&
        var e := errs[|errs| - 1]; Names(last, e.name) && e.name !in all && Lists(e.validGates, all)
      else Complaints(front, all, errs)
  }

  /** What setting the flag text does to the states of the gates, and what it complains about. */
  ghost predicate Sets(before: map<string, bool>, text: string, after: map<string, bool>, errs: seq<UnknownGate>) {
    var pieces := Split(text, ',');
    after.Keys == before.Keys &&
    (forall name :: name in before ==>
      (forall i: nat, on :: LastOrder(pieces, i, name, on) ==> after[name] == on) &&
      ((forall i :: 0 <= i < |pieces| ==> !Names(pieces[i], name)) ==> after[name] == before[name])) &&
    Complaints(pieces, before.Keys, errs)
  }

  class FlagValue {
    const reg: Registry?

    constructor (reg: Registry?)
      ensures this.reg == reg
    {
      this.reg := reg;
    }

    method String() returns (s: string)
      requires reg != null ==> reg.Valid()
      ensures s == if reg == null then "" else Print(reg.States())
    {
      if reg == null {
        return "";
      }
      var ids: seq<string> := [];
      var visited := reg.VisitAll();
      ghost var names := SortedNames(reg.gates.Keys);
      assert reg.States().Keys == reg.gates.Keys;
      for i := 0 to |visited|
        invariant ids == FlatMap(Printer(reg.States()), names[..i])
      {
        var id := visited[i].name;
        if !visited[i].enabled {
          id := "-" + id;
        }
        ids := ids + [id];
        FlatMapStep(Printer(reg.States()), names, i);
      }
      assert names[..|visited|] == names;
      return Join(ids, ',');
    }

    method Set(s: string) returns (errs: seq<UnknownGate>)
      requires reg != null && reg.Valid()
      modifies reg.gates.Values
      ensures reg.Valid() && reg.gates == old(reg.gates)
      ensures reg.States() == Apply(old(reg.States()), Mentions(s))
      ensures errs == Errors(reg.gates.Keys, Mentions(s))
      ensures Sets(old(reg.States()), s, reg.States(), errs)
    {
      hide Trim, Split, FlatMap, Sets, Apply, Errors;
      ghost var before := reg.States();
      assert before.Keys == reg.gates.Keys;
      SetsAsWritten(before, s);
      if s == "" {
        NothingMentioned();
        NoMentions(before);
        return [];
      }
      errs := [];
      var gates := Split(s, ',');
      NoMentions(before);
      FlatMapNone(Resolve, gates);
      for i := 0 to |gates|
        invariant reg.Valid() && reg.gates == old(reg.gates)
        invariant reg.States() == Apply(before, FlatMap(Resolve, gates[..i]))
        invariant errs == Errors(before.Keys, FlatMap(Resolve, gates[..i]))
      {
        ghost var done := FlatMap(Resolve, gates[..i]);
        FlatMapStep(Resolve, gates, i);
        var gateStr := TrimSpace(gates[i]);
        if gateStr == "" {
          assert FlatMap(Resolve, gates[..i + 1]) == done;
          continue;
        }
        var enabled := true;
        var name := gateStr;
        match gateStr[0] {
          case '-' =>
            enabled := false;
            name := gateStr[1..];
          case '+' =>
            enabled := true;
            name := gateStr[1..];
          case _ =>
        }
        ghost var m := Mention(name, enabled);
        assert Resolve(gates[i]) == [m];
        OneMore(before, done, m);
        assert FlatMap(Resolve, gates[..i + 1]) == done + [m];
        var err := reg.Set(name, enabled);
        if err.Some? {
          errs := errs + [err.value];
        }
      }
      assert gates[..|gates|] == gates;
    }
  }

  // ------------------------------------------------- sequencing of two texts

  lemma {:induction false} ApplyConcat(states: map<string, bool>, a: seq<Mention>, b: seq<Mention>)
    ensures Apply(states, a + b) == Apply(Apply(states, a), b)
  {
    if b == [] {
      assert a + b == a;
    } else {
      assert (a + b)[..|a + b| - 1] == a + b[..|b| - 1];
      ApplyConcat(states, a, b[..|b| - 1]);
    }
  }

  lemma {:induction false} ErrorsConcat(all: set<string>, a: seq<Mention>, b: seq<Mention>)
    ensures Errors(all, a + b) == Errors(all, a) + Errors(all, b)
  {
    if b == [] {
      assert a + b == a;
    } else {
      assert (a + b)[..|a + b| - 1] == a + b[..|b| - 1];
      ErrorsConcat(all, a, b[..|b| - 1]);
    }
  }

  lemma OneMore(states: map<string, bool>, ms: seq<Mention>, m: Mention)
    ensures Apply(states, ms).Keys == states.Keys
    ensures Apply(states, ms + [m]) ==
      if m.name in states then Apply(states, ms)[m.name := m.enabled] else Apply(states, ms)
    ensures Errors(states.Keys, ms + [m]) ==
      Errors(states.Keys, ms) + if m.name in states then [] else [UnknownGate(m.name, SortedNames(states.Keys))]
  {
    ApplyDomain(states, ms);
    assert (ms + [m])[..|ms|] == ms;
  }

  lemma NoMentions(states: map<string, bool>)
    ensures Apply(states, []) == states && Errors(states.Keys, []) == []
  {
  }

  lemma NothingMentioned()
    ensures Mentions("") == []
  {
    assert Split("", ',') == [""];
    FlatMapOne(Resolve, "");
  }

  /** Applying never changes which gates exist. */
  lemma {:induction false} ApplyDomain(states: map<string, bool>, ms: seq<Mention>)
    ensures Apply(states, ms).Keys == states.Keys
  {
    if ms != [] {
      ApplyDomain(states, ms[..|ms| - 1]);
    }
  }

  /** Setting "s,t" is setting s and then t: same states, same list of errors. */
  lemma SetSequence(states: map<string, bool>, s: string, t: string)
    ensures var both := Mentions(s + "," + t);
            Apply(states, both) == Apply(Apply(states, Mentions(s)), Mentions(t)) &&
            Errors(states.Keys, both) == Errors(states.Keys, Mentions(s)) + Errors(Apply(states, Mentions(s)).Keys, Mentions(t))
  {
    assert s + "," + t == s + [','] + t;
    SplitConcat(s, ',', t);
    FlatMapConcat(Resolve, Split(s, ','), Split(t, ','));
    ApplyConcat(states, Mentions(s), Mentions(t));
    ErrorsConcat(states.Keys, Mentions(s), Mentions(t));
    ApplyDomain(states, Mentions(s));
  }

  predicate Unmentioned(ms: seq<Mention>, name: string) {
    forall i :: 0 <= i < |ms| ==> ms[i].name != name
  }

  predicate LastMention(ms: seq<Mention>, i: nat, name: string) {
    i < |ms| && ms[i].name == name && Unmentioned(ms[i + 1..], name)
  }

  /** Each gate ends at its last mention, or as it was; names that are no gates change nothing. */
  lemma {:induction false} LastMentionWins(states: map<string, bool>, ms: seq<Mention>, name: string)
    ensures Apply(states, ms).Keys == states.Keys
    ensures name in states && Unmentioned(ms, name) ==> Apply(states, ms)[name] == states[name]
    ensures name in states ==>
      forall i: nat :: LastMention(ms, i, name) ==> Apply(states, ms)[name] == ms[i].enabled
  {
    ApplyDomain(states, ms);
    if ms != [] && name in states {
      var front := ms[..|ms| - 1];
      LastMentionWins(states, front, name);
      ApplyDomain(states, front);
      forall i: nat | LastMention(ms, i, name) ensures Apply(states, ms)[name] == ms[i].enabled {
        if i < |front| {
          assert ms[i + 1..][|ms| - 1 - (i + 1)] == ms[|ms| - 1];
          assert front[i + 1..] == ms[i + 1..][..|ms| - 1 - (i + 1)];
          assert LastMention(front, i, name);
        }
      }
    }
  }

  /** The parser of a piece agrees with the grammar: it gives the one order the piece spells, or none when it is blank. */
  lemma ResolveMeaning(piece: string)
    ensures |Resolve(piece)| <= 1 && (Resolve(piece) == [] <==> White(piece))
    ensures forall name, on :: Orders(piece, name, on) <==> Resolve(piece) == [Mention(name, on)]
    ensures forall name :: Names(piece, name) <==> Resolve(piece) != [] && Resolve(piece)[0].name == name
  {
    BlankHasNoOrder(piece);
    ResolveSingle(piece);
    hide Resolve;
    if Resolve(piece) != [] {
      ResolvedIsSpelled(piece);
    }
    forall name, on | Orders(piece, name, on) ensures Resolve(piece) == [Mention(name, on)] {
      var l, sign, r :| Spells(piece, name, on, l, sign, r);
      SpelledResolves(piece, name, on, l, sign, r);
    }
    hide Orders;
    forall name | Resolve(piece) != [] && Resolve(piece)[0].name == name ensures Names(piece, name) {
      assert Orders(piece, name, Resolve(piece)[0].enabled);
    }
  }

  lemma ResolveSingle(piece: string)
    ensures Resolve(piece) == [] || Resolve(piece) == [Resolve(piece)[0]]
  {
    hide Trim;
  }

  lemma ResolvedIsSpelled(piece: string)
    requires Resolve(piece) != []
    ensures Orders(piece, Resolve(piece)[0].name, Resolve(piece)[0].enabled)
  {
    var l, r := TrimParts(piece, SPACES);
    WhiteIsWithin(l);
    WhiteIsWithin(r);
    GateIsSpelled(piece, TrimSpace(piece), l, r);
    hide Trim, White, Tight, Orders;
  }

  lemma GateIsSpelled(piece: string, gate: string, l: string, r: string)
    requires piece == l + gate + r && White(l) && White(r) && Tight(gate, SPACES) && gate != ""
    ensures gate[0] == '-' || gate[0] == '+' ==> Orders(piece, gate[1..], gate[0] == '+')
    ensures gate[0] != '-' && gate[0] != '+' ==> Orders(piece, gate, true)
  {
    hide White, Tight;
    if gate[0] == '-' || gate[0] == '+' {
      assert gate == gate[..1] + gate[1..] && gate[..1] == [gate[0]];
      assert piece == l + gate[..1] + gate[1..] + r;
      assert Spells(piece, gate[1..], gate[0] == '+', l, gate[..1], r);
    } else {
      assert "" + gate == gate && piece == l + "" + gate + r;
      assert Spells(piece, gate, true, l, "", r);
    }
  }

  lemma BlankHasNoOrder(piece: string)
    ensures Resolve(piece) == [] <==> White(piece)
  {
    WhiteIsWithin(piece);
    WhiteIsWithin("");
    if White(piece) {
      assert piece == piece + "" + "";
      TrimPadded(piece, "", "", SPACES);
    } else {
      var l, r := TrimParts(piece, SPACES);
    }
  }

  lemma SpelledResolves(piece: string, name: string, on: bool, l: string, sign: string, r: string)
    requires Spells(piece, name, on, l, sign, r)
    ensures Resolve(piece) == [Mention(name, on)]
  {
    WhiteIsWithin(l);
    WhiteIsWithin(r);
    assert piece == l + (sign + name) + r;
    TrimPadded(l, sign + name, r, SPACES);
    hide Trim;
    if sign != "" {
      assert (sign + name)[1..] == name;
    }
  }

  /** A name without space at its ends can be written with a sign, or without when it has none itself, and with space around. */
  lemma WaysToName(l: string, name: string, r: string)
    requires White(l) && White(r) && name != "" && Tight(name, SPACES)
    ensures Orders(l + "+" + name + r, name, true) && Orders(l + "-" + name + r, name, false)
    ensures name[0] != '+' && name[0] != '-' ==> Orders(l + name + r, name, true)
  {
    WhiteIsWithin("+");
    WhiteIsWithin("-");
    assert "+"[0] == '+' && "-"[0] == '-';
    assert Tight("+" + name, SPACES) && Tight("-" + name, SPACES);
    assert Spells(l + "+" + name + r, name, true, l, "+", r);
    assert Spells(l + "-" + name + r, name, false, l, "-", r);
    assert l + "" + name + r == l + name + r && "" + name == name;
    assert name[0] != '+' && name[0] != '-' ==> Spells(l + name + r, name, true, l, "", r);
  }

  /** Setting, stated on the text alone, is what applying the mentions does. */
  lemma SetsAsWritten(states: map<string, bool>, text: string)
    ensures Sets(states, text, Apply(states, Mentions(text)), Errors(states.Keys, Mentions(text)))
  {
    var pieces := Split(text, ',');
    ApplyDomain(states, Mentions(text));
    forall name, i: nat, on | name in states && LastOrder(pieces, i, name, on)
      ensures Apply(states, FlatMap(Resolve, pieces))[name] == on {
      LastOrderWins(states, pieces, i, name, on);
    }
    forall name | name in states && forall i :: 0 <= i < |pieces| ==> !Names(pieces[i], name)
      ensures Apply(states, FlatMap(Resolve, pieces))[name] == states[name] {
      UnnamedStays(states, pieces, name);
    }
    ErrorsAsWritten(states.Keys, pieces);
  }

  /** What one more piece does to one gate. */
  lemma OnePiece(states: map<string, bool>, pieces: seq<string>, name: string)
    requires pieces != [] && name in states
    ensures var front, last := pieces[..|pieces| - 1], pieces[|pieces| - 1];
            var before, after := Apply(states, FlatMap(Resolve, front)), Apply(states, FlatMap(Resolve, pieces));
            name in before && name in after && (!Names(last, name) ==> after[name] == before[name]) &&
            forall on :: Orders(last, name, on) ==> after[name] == on
  {
    hide Resolve, Orders, Names, Apply;
    var front, last := pieces[..|pieces| - 1], pieces[|pieces| - 1];
    var ms := FlatMap(Resolve, front);
    ResolveMeaning(last);
    ApplyDomain(states, ms);
    assert FlatMap(Resolve, pieces) == ms + Resolve(last);
    hide FlatMap;
    if Resolve(last) == [] {
      assert ms + [] == ms;
    } else {
      OneMore(states, ms, Resolve(last)[0]);
      assert Resolve(last) == [Resolve(last)[0]];
    }
  }

  lemma {:induction false} LastOrderWins(states: map<string, bool>, pieces: seq<string>, i: nat, name: string, on: bool)
    requires name in states && LastOrder(pieces, i, name, on)
    ensures name in Apply(states, FlatMap(Resolve, pieces)) && Apply(states, FlatMap(Resolve, pieces))[name] == on
    decreases |pieces|
  {
    hide Resolve, Orders, Names, Apply, FlatMap;
    OnePiece(states, pieces, name);
    var front := pieces[..|pieces| - 1];
    if i < |front| {
      assert forall j :: 0 <= j < |front| ==> front[j] == pieces[j];
      LastOrderWins(states, front, i, name, on);
    }
  }

  lemma {:induction false} UnnamedStays(states: map<string, bool>, pieces: seq<string>, name: string)
    requires name in states && forall i :: 0 <= i < |pieces| ==> !Names(pieces[i], name)
    ensures name in Apply(states, FlatMap(Resolve, pieces)) && Apply(states, FlatMap(Resolve, pieces))[name] == states[name]
    decreases |pieces|
  {
    hide Resolve, Orders, Names, Apply, FlatMap;
    if pieces == [] {
      NothingApplied(states);
    } else {
      OnePiece(states, pieces, name);
      UnnamedStays(states, pieces[..|pieces| - 1], name);
    }
  }

  lemma NothingApplied(states: map<string, bool>)
    ensures Apply(states, FlatMap(Resolve, [])) == states
  {
  }

  lemma {:induction false} ErrorsAsWritten(all: set<string>, pieces: seq<string>)
    ensures Complaints(pieces, all, Errors(all, FlatMap(Resolve, pieces)))
  {
    hide Resolve, Orders, Names;
    if pieces != [] {
      var front, last := pieces[..|pieces| - 1], pieces[|pieces| - 1];
      var ms := FlatMap(Resolve, front);
      ErrorsAsWritten(all, front);
      ResolveMeaning(last);
      assert FlatMap(Resolve, pieces) == ms + Resolve(last);
      if Resolve(last) == [] {
        assert ms + [] == ms;
      } else {
        var m := Resolve(last)[0];
        assert Resolve(last) == [m] && (ms + [m])[..|ms|] == ms;
        assert Orders(last, m.name, m.enabled);
      }
    }
  }

  // ------------------------------------------------------------ round trip

  /** Exactly the gate states whose printed text reads back as themselves. */
  predicate Printable(name: string, enabled: bool) {
    ',' !in name &&
    if enabled then name != "" && Tight(name, SPACES) && name[0] != '-' && name[0] != '+'
    else name == "" || name[|name| - 1] !in SPACES
  }

  lemma ResolveShape(piece: string)
    ensures forall m :: m in Resolve(piece) ==> |m.name| <= |piece|
    ensures Signed(piece) || !Tight(piece, SPACES) ==> forall m :: m in Resolve(piece) ==> |m.name| < |piece|
    ensures Signed(piece) && !Tight(piece, SPACES) ==> forall m :: m in Resolve(piece) ==> |m.name| + 1 < |piece|
  {
    TrimShape(piece, SPACES);
  }

  lemma PrintableReadsBack(name: string, enabled: bool)
    requires Printable(name, enabled)
    ensures Mentions(GateText(name, enabled)) == [Mention(name, enabled)]
  {
    var text := GateText(name, enabled);
    SplitAtom(text, ',');
    TrimShape(text, SPACES);
    FlatMapOne(Resolve, text);
    assert Tight(text, SPACES);
    assert text != "";
    if !enabled {
      assert text[1..] == name;
    }
  }

  /** The text of an unprintable state only ever mentions strictly shorter names. */
  lemma UnprintableShrinks(name: string, enabled: bool, m: Mention)
    requires !Printable(name, enabled) && m in Mentions(GateText(name, enabled))
    ensures |m.name| < |name|
  {
    var text := GateText(name, enabled);
    var pieces := Split(text, ',');
    FlatMapFrom(Resolve, pieces, m);
    var i :| 0 <= i < |pieces| && m in Resolve(pieces[i]);
    ResolveShape(pieces[i]);
    if ',' in name {
      CommaSplits(name, enabled, i);
    } else {
      SplitAtom(text, ',');
      assert pieces[i] == text;
    }
  }

  lemma CommaSplits(name: string, enabled: bool, i: nat)
    requires ',' in name && i < |Split(GateText(name, enabled), ',')|
    ensures var piece := Split(GateText(name, enabled), ',')[i];
            |piece| < |name| || (Signed(piece) && |piece| <= |name|)
  {
    var text := GateText(name, enabled);
    var k :| 0 <= k < |name| && name[k] == ',';
    assert text[|text| - |name| + k] == ',';
    SplitPieces(text, ',');
    assert enabled || (text[0] == '-' && IndexOf(text, ',') >= 1);
  }

  /** The mentions one gate's text holds. */
  function Mentioner(states: map<string, bool>): string -> seq<Mention> {
    name => if name in states then Mentions(GateText(name, states[name])) else []
  }

  /** The mentions of the printed registry are those of its gates, in listing order. */
  function GateMentions(names: seq<string>, states: map<string, bool>): seq<Mention> {
    FlatMap(Mentioner(states), names)
  }

  lemma {:induction false} SplitMentions(names: seq<string>, states: map<string, bool>)
    requires forall n :: n in names ==> n in states
    ensures |FlatMap(Printer(states), names)| == |names|
    ensures FlatMap(Resolve, FlatMap(Splitter(','), FlatMap(Printer(states), names))) == GateMentions(names, states)
  {
    if names != [] {
      var front, last := names[..|names| - 1], names[|names| - 1];
      var text := GateText(last, states[last]);
      SplitMentions(front, states);
      FlatMapConcat(Splitter(','), FlatMap(Printer(states), front), [text]);
      FlatMapOne(Splitter(','), text);
      FlatMapConcat(Resolve, FlatMap(Splitter(','), FlatMap(Printer(states), front)), Split(text, ','));
    }
  }

  lemma PrintMentions(states: map<string, bool>)
    ensures Mentions(Print(states)) == GateMentions(SortedNames(states.Keys), states)
  {
    var names := SortedNames(states.Keys);
    SplitMentions(names, states);
    if names == [] {
      NothingMentioned();
    } else {
      SplitJoin(FlatMap(Printer(states), names), ',');
    }
  }

  /** The mentions of a listing in which each gate is mentioned once, in its own state. */
  predicate Echoes(ms: seq<Mention>, names: seq<string>, states: map<string, bool>) {
    |ms| == |names| && forall i :: 0 <= i < |names| ==> names[i] in states && ms[i] == Mention(names[i], states[names[i]])
  }

  lemma {:induction false} SingleMentions(names: seq<string>, states: map<string, bool>, f: string -> seq<Mention>)
    requires forall n :: n in names ==> n in states && f(n) == [Mention(n, states[n])]
    ensures Echoes(FlatMap(f, names), names, states)
  {
    if names != [] {
      SingleMentions(names[..|names| - 1], states, f);
    }
  }

  lemma {:induction false} KnownMentionsHaveNoErrors(all: set<string>, ms: seq<Mention>)
    requires forall i :: 0 <= i < |ms| ==> ms[i].name in all
    ensures Errors(all, ms) == []
  {
    if ms != [] {
      KnownMentionsHaveNoErrors(all, ms[..|ms| - 1]);
    }
  }

  lemma {:induction false} LongestUnprintable(names: seq<string>, states: map<string, bool>) returns (g: string)
    requires forall n :: n in names ==> n in states
    requires exists n :: n in names && !Printable(n, states[n])
    ensures g in names && !Printable(g, states[g])
    ensures forall n :: n in names && !Printable(n, states[n]) ==> |n| <= |g|
  {
    var front, last := names[..|names| - 1], names[|names| - 1];
    assert forall n :: n in names <==> n == last || n in front;
    if exists n :: n in front && !Printable(n, states[n]) {
      g := LongestUnprintable(front, states);
      if !Printable(last, states[last]) && |last| > |g| {
        g := last;
      }
    } else {
      g := last;
    }
  }

  /** Reading the text s into a registry in states target gives states, without error. */
  ghost predicate Restores(s: string, target: map<string, bool>, states: map<string, bool>) {
    Apply(target, Mentions(s)) == states && Errors(target.Keys, Mentions(s)) == []
  }

  /**
    Feeding the printed text to any registry with the same gate names restores the printed
    states without error exactly when every gate's state is printable.
  */
  lemma PrintSetRoundTrip(states: map<string, bool>)
    ensures (forall target: map<string, bool> :: target.Keys == states.Keys ==> Restores(Print(states), target, states))
            <==> (forall n :: n in states ==> Printable(n, states[n]))
  {
    if forall n :: n in states ==> Printable(n, states[n]) {
      forall target: map<string, bool> | target.Keys == states.Keys ensures Restores(Print(states), target, states) {
        PrintableRestores(states, target);
      }
    } else {
      var target := UnprintableFails(states);
      assert !Restores(Print(states), target, states);
    }
  }

  /** The printed text of gates with comma-free names, piece by piece: the names in order, a dash before those that are off. */
  lemma PrintedPieces(states: map<string, bool>)
    requires states != map[] && forall n :: n in states ==> ',' !in n
    ensures var names, pieces := SortedNames(states.Keys), Split(Print(states), ',');
            |pieces| == |names| && forall i :: 0 <= i < |names| ==>
              names[i] in states && pieces[i] == if states[names[i]] then names[i] else "-" + names[i]
  {
    var names := SortedNames(states.Keys);
    PiecesOfPrinter(names, states);
    var n :| n in states;
    assert n in names;
    SplitJoinAtoms(FlatMap(Printer(states), names), ',');
  }

  lemma {:induction false} PiecesOfPrinter(names: seq<string>, states: map<string, bool>)
    requires forall n :: n in names ==> n in states && ',' !in n
    ensures var pieces := FlatMap(Printer(states), names);
            |pieces| == |names| && (forall p :: p in pieces ==> ',' !in p) &&
            forall i :: 0 <= i < |names| ==> pieces[i] == if states[names[i]] then names[i] else "-" + names[i]
  {
    if names != [] {
      PiecesOfPrinter(names[..|names| - 1], states);
    }
  }

  lemma PrintableRestores(states: map<string, bool>, target: map<string, bool>)
    requires target.Keys == states.Keys && forall n :: n in states ==> Printable(n, states[n])
    ensures Restores(Print(states), target, states)
  {
    var names := SortedNames(states.Keys);
    PrintMentions(states);
    forall n | n in names ensures Mentioner(states)(n) == [Mention(n, states[n])] {
      PrintableReadsBack(n, states[n]);
    }
    SingleMentions(names, states, Mentioner(states));
    EchoRestores(names, states, target, GateMentions(names, states));
  }

  lemma EchoRestores(names: seq<string>, states: map<string, bool>, target: map<string, bool>, ms: seq<Mention>)
    requires Lists(names, states.Keys) && target.Keys == states.Keys && Echoes(ms, names, states)
    ensures Apply(target, ms) == states && Errors(target.Keys, ms) == []
  {
    KnownMentionsHaveNoErrors(states.Keys, ms);
    ApplyDomain(target, ms);
    forall n | n in states ensures Apply(target, ms)[n] == states[n] {
      assert n in names;
      var i :| 0 <= i < |names| && names[i] == n;
      forall j | i < j < |names| ensures names[j] != n {
        LessTotal(names[i], names[j]);
      }
      assert LastMention(ms, i, n);
      LastMentionWins(target, ms, n);
    }
  }

  lemma UnprintableFails(states: map<string, bool>) returns (target: map<string, bool>)
    requires exists n :: n in states && !Printable(n, states[n])
    ensures target.Keys == states.Keys && !Restores(Print(states), target, states)
  {
    var names := SortedNames(states.Keys);
    assert forall n :: n in names <==> n in states;
    PrintMentions(states);
    target := SomeUnprintable(names, states);
  }

  lemma SomeUnprintable(names: seq<string>, states: map<string, bool>) returns (target: map<string, bool>)
    requires forall n :: n in names <==> n in states
    requires exists n :: n in states && !Printable(n, states[n])
    ensures target.Keys == states.Keys && Apply(target, GateMentions(names, states)) != states
  {
    var g := LongestUnprintable(names, states);
    UnprintableNeverSet(names, states, g);
    target := states[g := !states[g]];
    LastMentionWins(target, GateMentions(names, states), g);
  }

  /** The longest unprintable gate is mentioned nowhere in the printed text. */
  lemma UnprintableNeverSet(names: seq<string>, states: map<string, bool>, g: string)
    requires forall n :: n in names ==> n in states
    requires g in names && !Printable(g, states[g])
    requires forall n :: n in names && !Printable(n, states[n]) ==> |n| <= |g|
    ensures Unmentioned(GateMentions(names, states), g)
  {
    hide Mentions, Printable, FlatMap;
    var ms := GateMentions(names, states);
    forall i | 0 <= i < |ms| ensures ms[i].name != g {
      FlatMapFrom(Mentioner(states), names, ms[i]);
      var k :| 0 <= k < |names| && ms[i] in Mentioner(states)(names[k]);
      var n := names[k];
      if Printable(n, states[n]) {
        PrintableReadsBack(n, states[n]);
      } else {
        UnprintableShrinks(n, states[n], ms[i]);
      }
    }
  }

  /** Gate names with none of the characters the syntax uses print and read back in every state. */
  lemma PlainNamesRoundTrip(states: map<string, bool>, target: map<string, bool>)
    requires forall n :: n in states ==>
      n != "" && ',' !in n && Tight(n, SPACES) && n[0] != '-' && n[0] != '+'
    requires target.Keys == states.Keys
    ensures Restores(Print(states), target, states)
  {
    PrintSetRoundTrip(states);
    assert forall n :: n in states ==> Printable(n, states[n]);
  }

  /** Without the condition the round trip fails: an enabled gate "-x" prints as an order to turn x off. */
  lemma DashedNameFails()
    ensures !Restores(Print(map["-x" := true]), map["-x" := false], map["-x" := true])
  {
    var states := map["-x" := true];
    var names := SortedNames(states.Keys);
    PrintMentions(states);
    UnprintableNeverSet(names, states, "-x");
    LastMentionWins(map["-x" := false], GateMentions(names, states), "-x");
  }
}
