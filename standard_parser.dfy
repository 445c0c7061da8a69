/** The standard command-line parser: registered flags and options matched against the
    lexer's tokens, each token going to the first handler that accepts its name. */
module StandardParser {
  import opened Io
  import opened CmdLine
  import L = Lexopt
  import Utf8

  /** The error text for a value that is not UTF-8 (`lexopt::Error::NonUnicodeValue`). */
  const NonUnicodeText: string := "argument is invalid unicode"

  /** `match_arg`: the name a handler accepts the token under. */
  function MatchArg(h: Handler, arg: L.Arg): (r: Option<string>)
    ensures arg.Short? ==> (r.Some? <==> arg.c in h.short) && (r.Some? ==> r.value == [arg.c])
    ensures arg.Long? ==> (r.Some? <==> arg.name in h.long) && (r.Some? ==> r.value == arg.name)
    ensures arg.Value? ==> r.None?
  {
    match arg
    case Short(c) => if c in h.short then Some([c]) else None
    case Long(name) => if name in h.long then Some(name) else None
    case Value(_) => None
  }

  /** The first handler at or after `from` that accepts the token, with the name it
      matched. */
  function FirstMatch(handlers: seq<Handler>, arg: L.Arg, from: nat): (r: Option<(nat, string)>)
    requires from <= |handlers|
    ensures r.Some? ==>
      from <= r.value.0 < |handlers| && MatchArg(handlers[r.value.0], arg) == Some(r.value.1) &&
      forall j :: from <= j < r.value.0 ==> MatchArg(handlers[j], arg).None?
    ensures r.None? ==> forall j :: from <= j < |handlers| ==> MatchArg(handlers[j], arg).None?
    decreases |handlers| - from
  {
    if from == |handlers| then None
    else
      match MatchArg(handlers[from], arg)
      case Some(name) => Some((from, name))
      case None => FirstMatch(handlers, arg, from + 1)
  }

  /** The error for a token no handler accepts. */
  function Unmatched(arg: L.Arg): (e: ParsingError)
    ensures arg.Short? ==> e == UnknownOption([arg.c])
    ensures arg.Long? ==> e == UnknownOption(arg.name)
    ensures arg.Value? ==> e == UnknownValue
  {
    match arg
    case Short(c) => UnknownOption([c])
    case Long(name) => UnknownOption(name)
    case Value(_) => UnknownValue
  }

  /** `get_value`: a flag is `true` and takes nothing more; an option takes the next
      value from the lexer and gives it, as text, to its parser. */
  function GetValueSpec(h: Handler, name: string, s: L.LexState): (r: (Result<Value, ParsingError>, L.LexState))
    ensures r.1.Measure() <= s.Measure()
    ensures h.FlagHandler? ==> r == (Ok(BoolValue(true)), s)
  {
    match h
    case FlagHandler(_, _) => (Ok(BoolValue(true)), s)
    case OptionHandler(_, _, parse) =>
      var taken := L.TakeValue(s);
      var after := taken.1;
      if taken.0.Err? then (Err(MissingValue(name)), after)
      else
        var text := Utf8.Decode(taken.0.value);
        if text.None? then (Err(ValueParsingFailed(name, NonUnicodeText)), after)
        else
          var v := parse(text.value);
          if v.Err? then (Err(ValueParsingFailed(name, v.error)), after) else (Ok(v.value), after)
  }

  /** `parse_next`: one token and the value it sets, or None at the end. */
  function Step(handlers: seq<Handler>, s: L.LexState): (r: (Result<Option<(nat, Value)>, ParsingError>, L.LexState))
    ensures r.0.Ok? && r.0.value.Some? ==> r.0.value.value.0 < |handlers| && r.1.Measure() < s.Measure()
  {
    var next := L.NextArg(s);
    var after := next.1;
    if next.0.Err? then (Err(ParsingFailed), after)
    else if next.0.value.None? then (Ok(None), after)
    else
      var arg := next.0.value.value;
      var found := FirstMatch(handlers, arg, 0);
      if found.None? then (Err(Unmatched(arg)), after)
      else
        var id := found.value.0;
        var got := GetValueSpec(handlers[id], found.value.1, after);
        if got.0.Err? then (Err(got.0.error), got.1) else (Ok(Some((id, got.0.value))), got.1)
  }

  /** `parse_lexopt` from a given lexer state and slot values: steps until the lexer is
      exhausted, each value replacing its slot, and stops at the first error. */
  function ParseFrom(handlers: seq<Handler>, values: seq<Option<Value>>, s: L.LexState): (r: Result<seq<Option<Value>>, ParsingError>)
    requires |values| == |handlers|
    ensures r.Ok? ==> |r.value| == |handlers|
    decreases s.Measure()
  {
    var step := Step(handlers, s);
    if step.0.Err? then Err(step.0.error)
    else if step.0.value.None? then Ok(values)
    else
      var chosen := step.0.value.value;
      ParseFrom(handlers, values[chosen.0 := Some(chosen.1)], step.1)
  }

  function Unset(n: nat): (r: seq<Option<Value>>)
    ensures |r| == n && forall i :: 0 <= i < n ==> r[i].None?
  {
    seq(n, _ => None)
  }

  /** `Parsed`: one slot per registered argument. */
  datatype Parsed = Parsed(values: seq<Option<Value>>)
  {
    /** `get`: the slot of the argument. */
    function Get(arg: ArgId): (r: Option<Value>)
      requires arg.id < |values|
      ensures r == values[arg.id]
    {
      values[arg.id]
    }
  }

  /** `parse_args` over items, the program name left out. */
  function Parse(handlers: seq<Handler>, items: seq<L.Item>): (r: Result<Parsed, ParsingError>)
    ensures r.Ok? ==> |r.value.values| == |handlers|
  {
    match ParseFrom(handlers, Unset(|handlers|), L.LexState(items, None))
    case Ok(values) => Ok(Parsed(values))
    case Err(e) => Err(e)
  }

  class Parser {
    var args: seq<Handler>

    constructor ()
      ensures args == []
    {
      args := [];
    }

    method AddFlag(short: seq<char>, long: seq<string>) returns (id: ArgId)
      modifies this
      ensures id.id == |old(args)|
      ensures args == old(args) + [FlagHandler(short, long)]
    {
      id := ArgId(|args|);
      args := args + [FlagHandler(short, long)];
    }

    /** `add_option`: an option parsed by its type's `FromStr`. */
    method AddOption(short: seq<char>, long: seq<string>, t: ValueType) returns (id: ArgId)
      modifies this
      ensures id.id == |old(args)|
      ensures args == old(args) + [OptionHandler(short, long, FromStr(t))]
    {
      id := AddOptionWith(short, long, FromStr(t));
    }

    method AddOptionWith(short: seq<char>, long: seq<string>, parse: ValueParser) returns (id: ArgId)
      modifies this
      ensures id.id == |old(args)|
      ensures args == old(args) + [OptionHandler(short, long, parse)]
    {
      id := ArgId(|args|);
      args := args + [OptionHandler(short, long, parse)];
    }

    method GetValue(h: Handler, name: string, lexer: L.Lexer) returns (r: Result<Value, ParsingError>)
      modifies lexer
      ensures (r, lexer.State()) == GetValueSpec(h, name, old(lexer.State()))
    {
      if h.FlagHandler? {
        return Ok(BoolValue(true));
      }
      var raw := lexer.Value();
      if raw.Err? {
        return Err(MissingValue(name));
      }
      var text := Utf8.Decode(raw.value);
      if text.None? {
        return Err(ValueParsingFailed(name, NonUnicodeText));
      }
      var v := h.parse(text.value);
      if v.Err? {
        return Err(ValueParsingFailed(name, v.error));
      }
      return Ok(v.value);
    }

    method ParseNext(lexer: L.Lexer) returns (r: Result<Option<(nat, Value)>, ParsingError>)
      modifies lexer
      ensures (r, lexer.State()) == Step(args, old(lexer.State()))
    {
      var next := lexer.Next();
      if next.Err? {
        return Err(ParsingFailed);
      }
      if next.value.None? {
        return Ok(None);
      }
      var arg := next.value.value;
      for id := 0 to |args|
        invariant FirstMatch(args, arg, id) == FirstMatch(args, arg, 0)
        invariant lexer.State() == L.NextArg(old(lexer.State())).1
      {
        var name := MatchArg(args[id], arg);
        if name.Some? {
          var v := GetValue(args[id], name.value, lexer);
          if v.Err? {
            return Err(v.error);
          }
          return Ok(Some((id, v.value)));
        }
      }
      return Err(Unmatched(arg));
    }

    method ParseLexopt(lexer: L.Lexer) returns (r: Result<Parsed, ParsingError>)
      modifies lexer
      ensures r.Ok? <==> ParseFrom(args, Unset(|args|), old(lexer.State())).Ok?
      ensures r.Ok? ==> r.value.values == ParseFrom(args, Unset(|args|), old(lexer.State())).value
      ensures r.Err? ==> r.error == ParseFrom(args, Unset(|args|), old(lexer.State())).error
    {
      var values := Unset(|args|);
      while true
        invariant |values| == |args|
        invariant ParseFrom(args, values, lexer.State()) == ParseFrom(args, Unset(|args|), old(lexer.State()))
        decreases lexer.State().Measure()
      {
        var step := ParseNext(lexer);
        if step.Err? {
          return Err(step.error);
        }
        if step.value.None? {
          break;
        }
        values := values[step.value.value.0 := Some(step.value.value.1)];
      }
      return Ok(Parsed(values));
    }

    method ParseArgs(items: seq<L.Item>) returns (r: Result<Parsed, ParsingError>)
      ensures r == Parse(args, items)
    {
      var lexer := new L.Lexer(items);
      r := ParseLexopt(lexer);
    }
  }

  // What parsing a command line gives, token by token.

  /** The token the lexer makes of an item, when no value is pending. */
  function ItemArg(item: L.Item): L.Arg
  {
    match item
    case ShortItem(c) => L.Short(c)
    case LongItem(name, _) => L.Long(name)
    case PlainItem(raw) => L.Value(raw)
  }

  /** An item naming a registered argument, with no value attached to it. */
  predicate Names(handlers: seq<Handler>, item: L.Item)
  {
    (item.ShortItem? || (item.LongItem? && item.attached.None?)) &&
    FirstMatch(handlers, ItemArg(item), 0).Some?
  }

  /** The argument an item names, and the name it matched under. */
  function Selected(handlers: seq<Handler>, item: L.Item): (nat, string)
    requires FirstMatch(handlers, ItemArg(item), 0).Some?
  {
    FirstMatch(handlers, ItemArg(item), 0).value
  }

  predicate NamesFlag(handlers: seq<Handler>, item: L.Item)
  {
    Names(handlers, item) && handlers[Selected(handlers, item).0].FlagHandler?
  }

  predicate NamesOption(handlers: seq<Handler>, item: L.Item)
  {
    Names(handlers, item) && handlers[Selected(handlers, item).0].OptionHandler?
  }

  /** Some item names the argument in slot `j`. */
  predicate Given(handlers: seq<Handler>, items: seq<L.Item>, j: nat)
  {
    exists k :: 0 <= k < |items| && Names(handlers, items[k]) && Selected(handlers, items[k]).0 == j
  }

  /** The end of the command line: the slots are the parse's result. */
  lemma ParseEnd(handlers: seq<Handler>, values: seq<Option<Value>>)
    requires |values| == |handlers|
    ensures ParseFrom(handlers, values, L.LexState([], None)) == Ok(values)
  {
  }

  /** Nothing on the command line: every slot stays empty. */
  lemma ParseNoArgs(handlers: seq<Handler>)
    ensures Parse(handlers, []) == Ok(Parsed(Unset(|handlers|)))
  {
  }

  /** A flag at the front of the command line sets its slot to `true`, and the parse
      goes on with the rest. */
  lemma FlagStep(handlers: seq<Handler>, values: seq<Option<Value>>, items: seq<L.Item>)
    requires |values| == |handlers|
    requires items != [] && NamesFlag(handlers, items[0])
    ensures ParseFrom(handlers, values, L.LexState(items, None)) ==
      ParseFrom(handlers, values[Selected(handlers, items[0]).0 := Some(BoolValue(true))], L.LexState(items[1..], None))
  {
    var id := Selected(handlers, items[0]).0;
    assert Step(handlers, L.LexState(items, None)) == (Ok(Some((id, BoolValue(true)))), L.LexState(items[1..], None));
  }

  /** An argument is named on a command line when its head names it or its tail does. */
  lemma GivenCons(handlers: seq<Handler>, items: seq<L.Item>, j: nat)
    requires items != [] && Names(handlers, items[0])
    ensures Given(handlers, items, j) <==> Selected(handlers, items[0]).0 == j || Given(handlers, items[1..], j)
  {
    var rest := items[1..];
    if Given(handlers, rest, j) {
      var k :| 0 <= k < |rest| && Names(handlers, rest[k]) && Selected(handlers, rest[k]).0 == j;
      assert rest[k] == items[k + 1];
    }
    if Given(handlers, items, j) && Selected(handlers, items[0]).0 != j {
      var k :| 0 <= k < |items| && Names(handlers, items[k]) && Selected(handlers, items[k]).0 == j;
      assert items[k] == rest[k - 1];
    }
  }

  /** A command line of flags only: exactly the flags named somewhere on it are `true`,
      every other slot keeps its value. */
  lemma {:induction false} FlagsOnly(handlers: seq<Handler>, values: seq<Option<Value>>, items: seq<L.Item>)
    requires |values| == |handlers|
    requires forall k :: 0 <= k < |items| ==> NamesFlag(handlers, items[k])
    ensures ParseFrom(handlers, values, L.LexState(items, None)).Ok?
    ensures forall j :: 0 <= j < |handlers| ==>
      ParseFrom(handlers, values, L.LexState(items, None)).value[j] ==
        if Given(handlers, items, j) then Some(BoolValue(true)) else values[j]
    decreases |items|
  {
    if items == [] {
      ParseEnd(handlers, values);
    } else {
      var rest := items[1..];
      assert NamesFlag(handlers, items[0]);
      var id := Selected(handlers, items[0]).0;
      var next := values[id := Some(BoolValue(true))];
      forall k | 0 <= k < |rest| ensures NamesFlag(handlers, rest[k]) {
        assert rest[k] == items[k + 1];
      }
      FlagStep(handlers, values, items);
      FlagsOnly(handlers, next, rest);
      forall j | 0 <= j < |handlers|
        ensures ParseFrom(handlers, values, L.LexState(items, None)).value[j] ==
          if Given(handlers, items, j) then Some(BoolValue(true)) else values[j]
      {
        GivenCons(handlers, items, j);
      }
    }
  }

  /** A token no handler accepts ends the parse: an option name with `UnknownOption`
      carrying it, a plain value with `UnknownValue`. */
  lemma UnknownToken(handlers: seq<Handler>, values: seq<Option<Value>>, item: L.Item, rest: seq<L.Item>)
    requires |values| == |handlers|
    requires FirstMatch(handlers, ItemArg(item), 0).None?
    ensures ParseFrom(handlers, values, L.LexState([item] + rest, None)) == Err(Unmatched(ItemArg(item)))
  {
    var s := L.LexState([item] + rest, None);
    assert s.items[0] == item;
  }

  /** An option named by an item, with its value in the next item: the value's text goes
      to the option's parser; what that parser returns fills the option's slot, and an
      error stops the parse with `ValueParsingFailed` and the name matched. */
  lemma OptionGiven(handlers: seq<Handler>, values: seq<Option<Value>>, item: L.Item, text: string, rest: seq<L.Item>)
    requires |values| == |handlers|
    requires NamesOption(handlers, item)
    ensures
      var id := Selected(handlers, item).0;
      var v := handlers[id].parse(text);
      var r := ParseFrom(handlers, values, L.LexState([item, L.PlainItem(Utf8.Encode(text))] + rest, None));
      if v.Err? then r == Err(ValueParsingFailed(Selected(handlers, item).1, v.error))
      else r == ParseFrom(handlers, values[id := Some(v.value)], L.LexState(rest, None))
  {
    var items := [item, L.PlainItem(Utf8.Encode(text))] + rest;
    assert items[0] == item && items[1] == L.PlainItem(Utf8.Encode(text)) && items[2..] == rest;
    Utf8.DecodeEncode(text);
  }

  /** An option named last, with no value after it, gives `MissingValue` with its name. */
  lemma OptionMissingValue(handlers: seq<Handler>, values: seq<Option<Value>>, item: L.Item)
    requires |values| == |handlers|
    requires NamesOption(handlers, item)
    ensures ParseFrom(handlers, values, L.LexState([item], None)) == Err(MissingValue(Selected(handlers, item).1))
  {
    assert [item][0] == item && [item][1..] == [];
  }

  /** A value that is not UTF-8 gives `ValueParsingFailed` with the option's name. */
  lemma OptionNonUnicode(handlers: seq<Handler>, values: seq<Option<Value>>, item: L.Item, raw: Bytes, rest: seq<L.Item>)
    requires |values| == |handlers|
    requires NamesOption(handlers, item) && !Utf8.IsValid(raw)
    ensures ParseFrom(handlers, values, L.LexState([item, L.PlainItem(raw)] + rest, None)) ==
      Err(ValueParsingFailed(Selected(handlers, item).1, NonUnicodeText))
  {
    var items := [item, L.PlainItem(raw)] + rest;
    assert items[0] == item && items[1] == L.PlainItem(raw) && items[2..] == rest;
  }

  /** Given twice, under the same name or two names of the same option, an option keeps
      the value it was given last; the rest of the line goes on from there. */
  lemma OptionOverwritten(handlers: seq<Handler>, values: seq<Option<Value>>, item1: L.Item, first: string,
                          item2: L.Item, second: string, rest: seq<L.Item>)
    requires |values| == |handlers|
    requires NamesOption(handlers, item1) && NamesOption(handlers, item2)
    requires Selected(handlers, item1).0 == Selected(handlers, item2).0
    requires handlers[Selected(handlers, item1).0].parse(first).Ok?
    requires handlers[Selected(handlers, item1).0].parse(second).Ok?
    ensures
      var id := Selected(handlers, item1).0;
      var items := [item1, L.PlainItem(Utf8.Encode(first)), item2, L.PlainItem(Utf8.Encode(second))] + rest;
      ParseFrom(handlers, values, L.LexState(items, None)) ==
        ParseFrom(handlers, values[id := Some(handlers[id].parse(second).value)], L.LexState(rest, None))
  {
    var id := Selected(handlers, item1).0;
    var v1 := handlers[id].parse(first).value;
    var v2 := handlers[id].parse(second).value;
    var p1, p2 := L.PlainItem(Utf8.Encode(first)), L.PlainItem(Utf8.Encode(second));
    var tail := [item2, p2] + rest;
    assert [item1, p1, item2, p2] + rest == [item1, p1] + tail;
    calc {
      ParseFrom(handlers, values, L.LexState([item1, p1] + tail, None));
      { OptionGiven(handlers, values, item1, first, tail); }
      ParseFrom(handlers, values[id := Some(v1)], L.LexState(tail, None));
      { OptionGiven(handlers, values[id := Some(v1)], item2, second, rest); }
      ParseFrom(handlers, values[id := Some(v1)][id := Some(v2)], L.LexState(rest, None));
      { UpdateTwice(values, id, Some(v1), Some(v2)); }
      ParseFrom(handlers, values[id := Some(v2)], L.LexState(rest, None));
    }
  }

  lemma UpdateTwice<T>(s: seq<T>, i: nat, a: T, b: T)
    requires i < |s|
    ensures s[i := a][i := b] == s[i := b]
  {
  }

  /** No handler accepts a plain value where an option name is expected. */
  lemma PlainValueUnknown(handlers: seq<Handler>, values: seq<Option<Value>>, raw: Bytes, rest: seq<L.Item>)
    requires |values| == |handlers|
    ensures ParseFrom(handlers, values, L.LexState([L.PlainItem(raw)] + rest, None)) == Err(UnknownValue)
  {
    assert FirstMatch(handlers, L.Value(raw), 0).None?;
    UnknownToken(handlers, values, L.PlainItem(raw), rest);
  }

  /** A flag takes no value: a plain item after it is an unexpected value. */
  lemma FlagTakesNoValue(handlers: seq<Handler>, values: seq<Option<Value>>, item: L.Item, raw: Bytes)
    requires |values| == |handlers|
    requires NamesFlag(handlers, item)
    ensures ParseFrom(handlers, values, L.LexState([item, L.PlainItem(raw)], None)) == Err(UnknownValue)
  {
    var items := [item, L.PlainItem(raw)];
    assert items[0] == item && items[1..] == [L.PlainItem(raw)];
    var id := Selected(handlers, item).0;
    PlainValueUnknown(handlers, values[id := Some(BoolValue(true))], raw, []);
    assert [L.PlainItem(raw)] + [] == [L.PlainItem(raw)];
  }

  /** A value attached with '=' to a flag's long name is a lexer error, so the parse
      fails with `ParsingFailed`. */
  lemma FlagWithAttachedValue(handlers: seq<Handler>, values: seq<Option<Value>>, name: string, v: Bytes, rest: seq<L.Item>)
    requires |values| == |handlers|
    requires NamesFlag(handlers, L.LongItem(name, None))
    ensures ParseFrom(handlers, values, L.LexState([L.LongItem(name, Some(v))] + rest, None)) == Err(ParsingFailed)
  {
    var items := [L.LongItem(name, Some(v))] + rest;
    assert items[0] == L.LongItem(name, Some(v)) && items[1..] == rest;
  }
}
