/** The command-line parsers' test scripts: the generic flag and option tests run on the
    standard and the web parser, the standard parser's extra-value test, and the dummy
    parser's tests. */
module CmdLineTests {
  import opened Io
  import opened CmdLine
  import L = Lexopt
  import SP = StandardParser
  import WP = WebParser
  import Utf8

  /** One test argument: a name, and the value given after it, if any. */
  type TestArg = (string, Option<string>)

  /** `mark_arg` as the lexer then reads it: a name one byte long is a short option, a
      longer one a long option, an empty one a plain value (the test names hold no '=').
      The length is the name's UTF-8 length, as `String::len` counts it. */
  function MarkArg(arg: string): L.Item
  {
    var n := |Utf8.Encode(arg)|;
    if n == 1 then L.ShortItem(arg[0])
    else if n > 1 then L.LongItem(arg, None)
    else L.PlainItem(Utf8.Encode(arg))
  }

  /** The standard parser's `parse_test_args`: each name marked, each value after its name. */
  function TestItems(args: seq<TestArg>): seq<L.Item>
  {
    if args == [] then []
    else
      var item := MarkArg(args[0].0);
      (if args[0].1.Some? then [item, L.PlainItem(Utf8.Encode(args[0].1.value))] else [item]) +
      TestItems(args[1..])
  }

  /** The web parser's `parse_test_args`: "name=value" or "name" parameters; a name given
      twice keeps its first value. */
  function TestParams(args: seq<TestArg>): WP.Params
  {
    if args == [] then map[]
    else TestParams(args[1..])[args[0].0 := if args[0].1.Some? then args[0].1.value else ""]
  }

  const Yes: Option<Value> := Some(BoolValue(true))

  /** The handlers the flag tests register: `foo`/`f` and `bar`/`b`. */
  const FlagPair: seq<Handler> := [FlagHandler(['f'], ["foo"]), FlagHandler(['b'], ["bar"])]

  /** The handlers the option tests register: an `i32` `foo`/`f` and a `String` `bar`/`b`. */
  const OptionPair: seq<Handler> :=
    [OptionHandler(['f'], ["foo"], ParseI32), OptionHandler(['b'], ["bar"], ParseString)]

  predicate IsFoo(item: L.Item)
  {
    item == L.ShortItem('f') || item == L.LongItem("foo", None)
  }

  predicate IsBar(item: L.Item)
  {
    item == L.ShortItem('b') || item == L.LongItem("bar", None)
  }

  lemma FlagPairItem(item: L.Item)
    requires IsFoo(item) || IsBar(item)
    ensures SP.NamesFlag(FlagPair, item)
    ensures SP.Selected(FlagPair, item).0 == if IsFoo(item) then 0 else 1
  {
    if item == L.LongItem("foo", None) {
      assert SP.FirstMatch(FlagPair, L.Long("foo"), 0) == Some((0, "foo"));
    } else if item == L.ShortItem('f') {
      assert SP.FirstMatch(FlagPair, L.Short('f'), 0) == Some((0, "f"));
    } else if item == L.LongItem("bar", None) {
      assert SP.FirstMatch(FlagPair, L.Long("bar"), 0) == Some((1, "bar"));
    } else {
      assert SP.FirstMatch(FlagPair, L.Short('b'), 0) == Some((1, "b"));
    }
  }

  lemma FlagPairGiven(items: seq<L.Item>)
    requires forall k :: 0 <= k < |items| ==> IsFoo(items[k]) || IsBar(items[k])
    ensures SP.Given(FlagPair, items, 0) <==> exists k :: 0 <= k < |items| && IsFoo(items[k])
    ensures SP.Given(FlagPair, items, 1) <==> exists k :: 0 <= k < |items| && IsBar(items[k])
  {
    forall k | 0 <= k < |items|
      ensures SP.Names(FlagPair, items[k])
      ensures SP.Selected(FlagPair, items[k]).0 == if IsFoo(items[k]) then 0 else 1
    {
      FlagPairItem(items[k]);
    }
  }

  /** With the flag pair registered, a command line of their names sets exactly the
      flags it names. */
  lemma FlagPairLine(items: seq<L.Item>)
    requires forall k :: 0 <= k < |items| ==> IsFoo(items[k]) || IsBar(items[k])
    ensures SP.Parse(FlagPair, items) == Ok(SP.Parsed([
      if exists k :: 0 <= k < |items| && IsFoo(items[k]) then Yes else None,
      if exists k :: 0 <= k < |items| && IsBar(items[k]) then Yes else None]))
  {
    forall k | 0 <= k < |items| ensures SP.NamesFlag(FlagPair, items[k]) {
      FlagPairItem(items[k]);
    }
    SP.FlagsOnly(FlagPair, SP.Unset(2), items);
    FlagPairGiven(items);
    var values := SP.ParseFrom(FlagPair, SP.Unset(2), L.LexState(items, None)).value;
    assert values == [values[0], values[1]];
  }

  // The flag pair on each command line of the `flags` test.

  lemma FlagsNone()
    ensures SP.Parse(FlagPair, TestItems([])) == Ok(SP.Parsed([None, None]))
  {
    var items := [];
    assert TestItems([]) == items;
    FlagPairLine(items);
  }

  lemma FlagsFoo()
    ensures SP.Parse(FlagPair, TestItems([("foo", None)])) == Ok(SP.Parsed([Yes, None]))
  {
    var items := [L.LongItem("foo", None)];
    assert TestItems([("foo", None)]) == items;
    assert IsFoo(items[0]);
    FlagPairLine(items);
  }

  lemma FlagsBar()
    ensures SP.Parse(FlagPair, TestItems([("bar", None)])) == Ok(SP.Parsed([None, Yes]))
  {
    var items := [L.LongItem("bar", None)];
    assert TestItems([("bar", None)]) == items;
    assert IsBar(items[0]);
    FlagPairLine(items);
  }

  lemma FlagsFooBar()
    ensures SP.Parse(FlagPair, TestItems([("foo", None), ("bar", None)])) == Ok(SP.Parsed([Yes, Yes]))
  {
    var items := [L.LongItem("foo", None), L.LongItem("bar", None)];
    assert TestItems([("foo", None), ("bar", None)]) == items;
    assert IsFoo(items[0]) && IsBar(items[1]);
    FlagPairLine(items);
  }

  lemma FlagsF()
    ensures SP.Parse(FlagPair, TestItems([("f", None)])) == Ok(SP.Parsed([Yes, None]))
  {
    var items := [L.ShortItem('f')];
    assert TestItems([("f", None)]) == items;
    assert IsFoo(items[0]);
    FlagPairLine(items);
  }

  lemma FlagsB()
    ensures SP.Parse(FlagPair, TestItems([("b", None)])) == Ok(SP.Parsed([None, Yes]))
  {
    var items := [L.ShortItem('b')];
    assert TestItems([("b", None)]) == items;
    assert IsBar(items[0]);
    FlagPairLine(items);
  }

  lemma FlagsFB()
    ensures SP.Parse(FlagPair, TestItems([("f", None), ("b", None)])) == Ok(SP.Parsed([Yes, Yes]))
  {
    var items := [L.ShortItem('f'), L.ShortItem('b')];
    assert TestItems([("f", None), ("b", None)]) == items;
    assert IsFoo(items[0]) && IsBar(items[1]);
    FlagPairLine(items);
  }

  /** `flags` on the standard parser. */
  method StandardFlags() returns (foo: ArgId, bar: ArgId, got: seq<Result<SP.Parsed, ParsingError>>)
    ensures foo == ArgId(0) && bar == ArgId(1)
    ensures got == [
      Ok(SP.Parsed([None, None])),
      Ok(SP.Parsed([Yes, None])), Ok(SP.Parsed([None, Yes])), Ok(SP.Parsed([Yes, Yes])),
      Ok(SP.Parsed([Yes, None])), Ok(SP.Parsed([None, Yes])), Ok(SP.Parsed([Yes, Yes]))]
  {
    var parser := new SP.Parser();
    foo := parser.AddFlag(['f'], ["foo"]);
    bar := parser.AddFlag(['b'], ["bar"]);
    assert parser.args == FlagPair;
    var r0 := parser.ParseArgs(TestItems([]));
    FlagsNone();
    var r1 := parser.ParseArgs(TestItems([("foo", None)]));
    FlagsFoo();
    var r2 := parser.ParseArgs(TestItems([("bar", None)]));
    FlagsBar();
    var r3 := parser.ParseArgs(TestItems([("foo", None), ("bar", None)]));
    FlagsFooBar();
    var r4 := parser.ParseArgs(TestItems([("f", None)]));
    FlagsF();
    var r5 := parser.ParseArgs(TestItems([("b", None)]));
    FlagsB();
    var r6 := parser.ParseArgs(TestItems([("f", None), ("b", None)]));
    FlagsFB();
    got := [r0, r1, r2, r3, r4, r5, r6];
  }

  /** `flags_unknown` on the standard parser. */
  method StandardFlagsUnknown() returns (long: Result<SP.Parsed, ParsingError>, short: Result<SP.Parsed, ParsingError>)
    ensures long == Err(UnknownOption("baz"))
    ensures short == Err(UnknownOption("x"))
  {
    var parser := new SP.Parser();
    var _ := parser.AddFlag(['f'], ["foo"]);
    var _ := parser.AddFlag(['b'], ["bar"]);
    assert parser.args == FlagPair;
    long := parser.ParseArgs(TestItems([("baz", None)]));
    short := parser.ParseArgs(TestItems([("x", None)]));
    assert TestItems([("baz", None)]) == [L.LongItem("baz", None)] + [];
    assert TestItems([("x", None)]) == [L.ShortItem('x')] + [];
    SP.UnknownToken(FlagPair, SP.Unset(2), L.LongItem("baz", None), []);
    SP.UnknownToken(FlagPair, SP.Unset(2), L.ShortItem('x'), []);
  }

  const I123: Option<Value> := Some(IntValue(123))
  const Abc: Option<Value> := Some(StrValue("abc"))

  /** An option of the pair given once, with a value its parser accepts. */
  lemma OptionPairOnce(item: L.Item, text: string, v: Value)
    requires SP.NamesOption(OptionPair, item)
    requires OptionPair[SP.Selected(OptionPair, item).0].parse(text) == Ok(v)
    ensures SP.Parse(OptionPair, [item, L.PlainItem(Utf8.Encode(text))]) ==
      Ok(SP.Parsed(SP.Unset(2)[SP.Selected(OptionPair, item).0 := Some(v)]))
  {
    SP.OptionGiven(OptionPair, SP.Unset(2), item, text, []);
    assert [item, L.PlainItem(Utf8.Encode(text))] + [] == [item, L.PlainItem(Utf8.Encode(text))];
  }

  /** Both options of the pair given, `foo` first, with values their parsers accept. */
  lemma OptionPairBoth(foo: L.Item, fooText: string, bar: L.Item, barText: string, fooValue: Value, barValue: Value)
    requires SP.NamesOption(OptionPair, foo) && SP.Selected(OptionPair, foo).0 == 0
    requires SP.NamesOption(OptionPair, bar) && SP.Selected(OptionPair, bar).0 == 1
    requires ParseI32(fooText) == Ok(fooValue) && ParseString(barText) == Ok(barValue)
    ensures SP.Parse(OptionPair, [foo, L.PlainItem(Utf8.Encode(fooText)), bar, L.PlainItem(Utf8.Encode(barText))]) ==
      Ok(SP.Parsed([Some(fooValue), Some(barValue)]))
  {
    var second := [bar, L.PlainItem(Utf8.Encode(barText))];
    var once := SP.Unset(2)[0 := Some(fooValue)];
    var items := [foo, L.PlainItem(Utf8.Encode(fooText)), bar, L.PlainItem(Utf8.Encode(barText))];
    assert SP.ParseFrom(OptionPair, SP.Unset(2), L.LexState(items, None)) ==
           SP.ParseFrom(OptionPair, once, L.LexState(second, None)) by {
      assert items == [foo, L.PlainItem(Utf8.Encode(fooText))] + second;
      SP.OptionGiven(OptionPair, SP.Unset(2), foo, fooText, second);
    }
    assert SP.ParseFrom(OptionPair, once, L.LexState(second, None)) == Ok([Some(fooValue), Some(barValue)]) by {
      assert second == second + [];
      SP.OptionGiven(OptionPair, once, bar, barText, []);
      SP.ParseEnd(OptionPair, once[1 := Some(barValue)]);
      assert once[1 := Some(barValue)] == [Some(fooValue), Some(barValue)];
    }
  }

  lemma Parse123()
    ensures ParseI32("123") == Ok(IntValue(123))
  {
    assert Decimal(123) == "123";
    ParseI32RoundTrip(123);
  }

  // The option pair on each command line of the `options` test.

  lemma OptionsNone()
    ensures SP.Parse(OptionPair, TestItems([])) == Ok(SP.Parsed([None, None]))
  {
    assert TestItems([]) == [];
    SP.ParseNoArgs(OptionPair);
    assert SP.Unset(2) == [None, None];
  }

  lemma OptionsFoo()
    ensures SP.Parse(OptionPair, TestItems([("foo", Some("123"))])) == Ok(SP.Parsed([I123, None]))
  {
    var item := L.LongItem("foo", None);
    assert TestItems([("foo", Some("123"))]) == [item, L.PlainItem(Utf8.Encode("123"))];
    assert SP.FirstMatch(OptionPair, L.Long("foo"), 0) == Some((0, "foo"));
    Parse123();
    OptionPairOnce(item, "123", IntValue(123));
    assert SP.Unset(2)[0 := Some(IntValue(123))] == [I123, None];
  }

  lemma OptionsBar()
    ensures SP.Parse(OptionPair, TestItems([("bar", Some("abc"))])) == Ok(SP.Parsed([None, Abc]))
  {
    var item := L.LongItem("bar", None);
    assert TestItems([("bar", Some("abc"))]) == [item, L.PlainItem(Utf8.Encode("abc"))];
    assert SP.FirstMatch(OptionPair, L.Long("bar"), 0) == Some((1, "bar"));
    OptionPairOnce(item, "abc", StrValue("abc"));
    assert SP.Unset(2)[1 := Some(StrValue("abc"))] == [None, Abc];
  }

  lemma OptionsF()
    ensures SP.Parse(OptionPair, TestItems([("f", Some("123"))])) == Ok(SP.Parsed([I123, None]))
  {
    var item := L.ShortItem('f');
    assert TestItems([("f", Some("123"))]) == [item, L.PlainItem(Utf8.Encode("123"))];
    assert SP.FirstMatch(OptionPair, L.Short('f'), 0) == Some((0, "f"));
    Parse123();
    OptionPairOnce(item, "123", IntValue(123));
    assert SP.Unset(2)[0 := Some(IntValue(123))] == [I123, None];
  }

  lemma OptionsB()
    ensures SP.Parse(OptionPair, TestItems([("b", Some("abc"))])) == Ok(SP.Parsed([None, Abc]))
  {
    var item := L.ShortItem('b');
    assert TestItems([("b", Some("abc"))]) == [item, L.PlainItem(Utf8.Encode("abc"))];
    assert SP.FirstMatch(OptionPair, L.Short('b'), 0) == Some((1, "b"));
    OptionPairOnce(item, "abc", StrValue("abc"));
    assert SP.Unset(2)[1 := Some(StrValue("abc"))] == [None, Abc];
  }

  lemma OptionsFooBar()
    ensures SP.Parse(OptionPair, TestItems([("foo", Some("123")), ("bar", Some("abc"))])) == Ok(SP.Parsed([I123, Abc]))
  {
    var foo, bar := L.LongItem("foo", None), L.LongItem("bar", None);
    assert TestItems([("foo", Some("123")), ("bar", Some("abc"))]) ==
      [foo, L.PlainItem(Utf8.Encode("123")), bar, L.PlainItem(Utf8.Encode("abc"))];
    assert SP.FirstMatch(OptionPair, L.Long("foo"), 0) == Some((0, "foo"));
    assert SP.FirstMatch(OptionPair, L.Long("bar"), 0) == Some((1, "bar"));
    Parse123();
    OptionPairBoth(foo, "123", bar, "abc", IntValue(123), StrValue("abc"));
  }

  lemma OptionsFB()
    ensures SP.Parse(OptionPair, TestItems([("f", Some("123")), ("b", Some("abc"))])) == Ok(SP.Parsed([I123, Abc]))
  {
    var foo, bar := L.ShortItem('f'), L.ShortItem('b');
    assert TestItems([("f", Some("123")), ("b", Some("abc"))]) ==
      [foo, L.PlainItem(Utf8.Encode("123")), bar, L.PlainItem(Utf8.Encode("abc"))];
    assert SP.FirstMatch(OptionPair, L.Short('f'), 0) == Some((0, "f"));
    assert SP.FirstMatch(OptionPair, L.Short('b'), 0) == Some((1, "b"));
    Parse123();
    OptionPairBoth(foo, "123", bar, "abc", IntValue(123), StrValue("abc"));
  }

  /** A value the `i32` option cannot parse stops the parse with `ValueParsingFailed`
      naming the option. */
  lemma OptionBadValue()
    ensures var r := SP.Parse(OptionPair, TestItems([("foo", Some("abc")), ("123", None)]));
      r.Err? && r.error.ValueParsingFailed? && r.error.argName == "foo"
  {
    var foo := L.LongItem("foo", None);
    assert SP.FirstMatch(OptionPair, L.Long("foo"), 0) == Some((0, "foo"));
    assert "abc"[0] == 'a';
    ParseI32RejectsLetters("abc");
    assert TestItems([("foo", Some("abc")), ("123", None)]) ==
      [foo, L.PlainItem(Utf8.Encode("abc"))] + [L.LongItem("123", None)];
    SP.OptionGiven(OptionPair, SP.Unset(2), foo, "abc", [L.LongItem("123", None)]);
  }

  /** `options` on the standard parser. */
  method StandardOptions() returns (foo: ArgId, bar: ArgId, got: seq<Result<SP.Parsed, ParsingError>>, bad: Result<SP.Parsed, ParsingError>)
    ensures foo == ArgId(0) && bar == ArgId(1)
    ensures got == [
      Ok(SP.Parsed([None, None])),
      Ok(SP.Parsed([I123, None])), Ok(SP.Parsed([None, Abc])), Ok(SP.Parsed([I123, Abc])),
      Ok(SP.Parsed([I123, None])), Ok(SP.Parsed([None, Abc])), Ok(SP.Parsed([I123, Abc]))]
    ensures bad.Err? && bad.error.ValueParsingFailed? && bad.error.argName == "foo"
  {
    var parser := new SP.Parser();
    foo := parser.AddOptionWith(['f'], ["foo"], ParseI32);
    bar := parser.AddOption(['b'], ["bar"], Str);
    assert parser.args == OptionPair;
    var r0 := parser.ParseArgs(TestItems([]));
    OptionsNone();
    var r1 := parser.ParseArgs(TestItems([("foo", Some("123"))]));
    OptionsFoo();
    var r2 := parser.ParseArgs(TestItems([("bar", Some("abc"))]));
    OptionsBar();
    var r3 := parser.ParseArgs(TestItems([("foo", Some("123")), ("bar", Some("abc"))]));
    OptionsFooBar();
    var r4 := parser.ParseArgs(TestItems([("f", Some("123"))]));
    OptionsF();
    var r5 := parser.ParseArgs(TestItems([("b", Some("abc"))]));
    OptionsB();
    var r6 := parser.ParseArgs(TestItems([("f", Some("123")), ("b", Some("abc"))]));
    OptionsFB();
    got := [r0, r1, r2, r3, r4, r5, r6];
    bad := parser.ParseArgs(TestItems([("foo", Some("abc")), ("123", None)]));
    OptionBadValue();
  }

  /** `options_unknown` on the standard parser. */
  method StandardOptionsUnknown() returns (long: Result<SP.Parsed, ParsingError>, short: Result<SP.Parsed, ParsingError>)
    ensures long == Err(UnknownOption("baz"))
    ensures short == Err(UnknownOption("x"))
  {
    var parser := new SP.Parser();
    var _ := parser.AddOptionWith(['f'], ["foo"], ParseI32);
    var _ := parser.AddOption(['b'], ["bar"], Str);
    assert parser.args == OptionPair;
    long := parser.ParseArgs(TestItems([("baz", Some("123"))]));
    OptionsUnknownLong();
    short := parser.ParseArgs(TestItems([("x", Some("123"))]));
    OptionsUnknownShort();
  }

  lemma OptionsUnknownLong()
    ensures SP.Parse(OptionPair, TestItems([("baz", Some("123"))])) == Err(UnknownOption("baz"))
  {
    var value := L.PlainItem(Utf8.Encode("123"));
    assert TestItems([("baz", Some("123"))]) == [L.LongItem("baz", None)] + [value];
    SP.UnknownToken(OptionPair, SP.Unset(2), L.LongItem("baz", None), [value]);
  }

  lemma OptionsUnknownShort()
    ensures SP.Parse(OptionPair, TestItems([("x", Some("123"))])) == Err(UnknownOption("x"))
  {
    var value := L.PlainItem(Utf8.Encode("123"));
    assert TestItems([("x", Some("123"))]) == [L.ShortItem('x')] + [value];
    SP.UnknownToken(OptionPair, SP.Unset(2), L.ShortItem('x'), [value]);
  }

  /** `options_missing_value` on the standard parser. */
  method StandardOptionsMissingValue() returns (r: Result<SP.Parsed, ParsingError>)
    ensures r == Err(MissingValue("foo"))
  {
    var parser := new SP.Parser();
    var _ := parser.AddOptionWith(['f'], ["foo"], ParseI32);
    ghost var handlers := [OptionHandler(['f'], ["foo"], ParseI32)];
    assert parser.args == handlers;
    r := parser.ParseArgs(TestItems([("foo", None)]));
    assert TestItems([("foo", None)]) == [L.LongItem("foo", None)];
    assert SP.FirstMatch(handlers, L.Long("foo"), 0) == Some((0, "foo"));
    SP.OptionMissingValue(handlers, SP.Unset(1), L.LongItem("foo", None));
  }

  /** `--foo 123 abc` and `--bar abc`. */
  const ExtraAfterOption: seq<L.Item> :=
    [L.LongItem("foo", None), L.PlainItem(Utf8.Encode("123")), L.PlainItem(Utf8.Encode("abc"))]
  const ExtraAfterFlag: seq<L.Item> := [L.LongItem("bar", None), L.PlainItem(Utf8.Encode("abc"))]

  lemma ExtraValueLines()
    ensures SP.Parse([OptionHandler(['f'], ["foo"], ParseI32), FlagHandler(['b'], ["bar"])], ExtraAfterOption) == Err(UnknownValue)
    ensures SP.Parse([OptionHandler(['f'], ["foo"], ParseI32), FlagHandler(['b'], ["bar"])], ExtraAfterFlag) == Err(UnknownValue)
  {
    var handlers := [OptionHandler(['f'], ["foo"], ParseI32), FlagHandler(['b'], ["bar"])];
    var foo := L.LongItem("foo", None);
    var abc := L.PlainItem(Utf8.Encode("abc"));
    assert SP.FirstMatch(handlers, L.Long("foo"), 0) == Some((0, "foo"));
    assert SP.FirstMatch(handlers, L.Long("bar"), 0) == Some((1, "bar"));
    Parse123();
    assert ExtraAfterOption == [foo, L.PlainItem(Utf8.Encode("123"))] + [abc];
    SP.OptionGiven(handlers, SP.Unset(2), foo, "123", [abc]);
    SP.PlainValueUnknown(handlers, SP.Unset(2)[0 := I123], Utf8.Encode("abc"), []);
    assert [abc] + [] == [abc];
    SP.FlagTakesNoValue(handlers, SP.Unset(2), L.LongItem("bar", None), Utf8.Encode("abc"));
  }

  /** `extra_value`: a value nothing asks for, after an option's value or after a flag,
      fails the parse with `UnknownValue`. */
  method StandardExtraValue() returns (afterOption: Result<SP.Parsed, ParsingError>, afterFlag: Result<SP.Parsed, ParsingError>)
    ensures afterOption == Err(UnknownValue)
    ensures afterFlag == Err(UnknownValue)
  {
    var parser := new SP.Parser();
    var _ := parser.AddOption(['f'], ["foo"], I32);
    var _ := parser.AddFlag(['b'], ["bar"]);
    ghost var handlers := [OptionHandler(['f'], ["foo"], ParseI32), FlagHandler(['b'], ["bar"])];
    assert parser.args == handlers;
    afterOption := parser.ParseArgs(ExtraAfterOption);
    afterFlag := parser.ParseArgs(ExtraAfterFlag);
    ExtraValueLines();
  }

  // The web parser: a test line becomes query parameters, and each handler reads its names.

  /** The flag pair reads "foo" or "f", and "bar" or "b". */
  lemma WebFlagPair(params: WP.Params)
    ensures WP.ParseUrl(FlagPair, params) ==
      Ok([if "foo" in params || "f" in params then Yes else None,
          if "bar" in params || "b" in params then Yes else None])
  {
    var foo := WP.FlagGet(['f'], ["foo"], params);
    var bar := WP.FlagGet(['b'], ["bar"], params);
    assert foo == if "foo" in params || "f" in params then Yes else None by {
      assert forall c :: c in ['f'] ==> c == 'f';
      assert 'f' in ['f'] && "foo" in ["foo"];
    }
    assert bar == if "bar" in params || "b" in params then Yes else None by {
      assert forall c :: c in ['b'] ==> c == 'b';
      assert 'b' in ['b'] && "bar" in ["bar"];
    }
    assert WP.HandlerGet(FlagPair[0], params) == Ok(foo);
    assert WP.HandlerGet(FlagPair[1], params) == Ok(bar);
    var r := WP.ParseUrl(FlagPair, params);
    assert r.Ok? && |r.value| == 2 && r.value[0] == foo && r.value[1] == bar;
    assert r.value == [foo, bar];
  }

  /** An option tries its long name, then its short one. */
  lemma FirstGivenPair(long: string, short: char, parse: ValueParser, params: WP.Params)
    ensures WP.FirstGiven([long] + WP.ShortNames([short]), parse, params) ==
      if long in params then WP.GetName(long, parse, params) else WP.GetName([short], parse, params)
  {
    var names := [long] + WP.ShortNames([short]);
    assert names == [long, [short]];
  }

  /** The option pair: each option's value, or the `i32` option's error (a `String` value
      always parses). */
  lemma WebOptionPair(params: WP.Params)
    ensures
      var foo := if "foo" in params then WP.GetName("foo", ParseI32, params) else WP.GetName("f", ParseI32, params);
      var bar := if "bar" in params then WP.GetName("bar", ParseString, params) else WP.GetName("b", ParseString, params);
      WP.ParseUrl(OptionPair, params) ==
        if foo.Err? then Err(foo.error) else Ok([foo.value, bar.value])
  {
    var foo := if "foo" in params then WP.GetName("foo", ParseI32, params) else WP.GetName("f", ParseI32, params);
    var bar := if "bar" in params then WP.GetName("bar", ParseString, params) else WP.GetName("b", ParseString, params);
    FirstGivenPair("foo", 'f', ParseI32, params);
    FirstGivenPair("bar", 'b', ParseString, params);
    assert WP.HandlerGet(OptionPair[0], params) == foo;
    assert WP.HandlerGet(OptionPair[1], params) == bar;
    var r := WP.ParseUrl(OptionPair, params);
    if foo.Err? {
      assert r == Err(foo.error);
    } else {
      assert r.Ok? && |r.value| == 2 && r.value[0] == foo.value && r.value[1] == bar.value;
      assert r.value == [foo.value, bar.value];
    }
  }

  // The flag pair and the option pair on each line of the `flags` and `options` tests.

  lemma WebFlagsNone()
    ensures WP.ParseUrl(FlagPair, TestParams([])) == Ok([None, None])
  {
    assert TestParams([]) == map[];
    WebFlagPair(TestParams([]));
  }

  lemma WebFlagsFoo()
    ensures WP.ParseUrl(FlagPair, TestParams([("foo", None)])) == Ok([Yes, None])
  {
    assert TestParams([("foo", None)]) == map["foo" := ""];
    WebFlagPair(TestParams([("foo", None)]));
  }

  lemma WebFlagsBar()
    ensures WP.ParseUrl(FlagPair, TestParams([("bar", None)])) == Ok([None, Yes])
  {
    assert TestParams([("bar", None)]) == map["bar" := ""];
    WebFlagPair(TestParams([("bar", None)]));
  }

  lemma WebFlagsFooBar()
    ensures WP.ParseUrl(FlagPair, TestParams([("foo", None), ("bar", None)])) == Ok([Yes, Yes])
  {
    assert TestParams([("foo", None), ("bar", None)]) == map["foo" := "", "bar" := ""];
    WebFlagPair(TestParams([("foo", None), ("bar", None)]));
  }

  lemma WebFlagsF()
    ensures WP.ParseUrl(FlagPair, TestParams([("f", None)])) == Ok([Yes, None])
  {
    assert TestParams([("f", None)]) == map["f" := ""];
    WebFlagPair(TestParams([("f", None)]));
  }

  lemma WebFlagsB()
    ensures WP.ParseUrl(FlagPair, TestParams([("b", None)])) == Ok([None, Yes])
  {
    assert TestParams([("b", None)]) == map["b" := ""];
    WebFlagPair(TestParams([("b", None)]));
  }

  lemma WebFlagsFB()
    ensures WP.ParseUrl(FlagPair, TestParams([("f", None), ("b", None)])) == Ok([Yes, Yes])
  {
    assert TestParams([("f", None), ("b", None)]) == map["f" := "", "b" := ""];
    WebFlagPair(TestParams([("f", None), ("b", None)]));
  }

  lemma WebOptionsNone()
    ensures WP.ParseUrl(OptionPair, TestParams([])) == Ok([None, None])
  {
    assert TestParams([]) == map[];
    WebOptionPair(TestParams([]));
  }

  lemma WebOptionsFoo()
    ensures WP.ParseUrl(OptionPair, TestParams([("foo", Some("123"))])) == Ok([I123, None])
  {
    assert TestParams([("foo", Some("123"))]) == map["foo" := "123"];
    Parse123();
    WebOptionPair(TestParams([("foo", Some("123"))]));
  }

  lemma WebOptionsBar()
    ensures WP.ParseUrl(OptionPair, TestParams([("bar", Some("abc"))])) == Ok([None, Abc])
  {
    assert TestParams([("bar", Some("abc"))]) == map["bar" := "abc"];
    WebOptionPair(TestParams([("bar", Some("abc"))]));
  }

  lemma WebOptionsFooBar()
    ensures WP.ParseUrl(OptionPair, TestParams([("foo", Some("123")), ("bar", Some("abc"))])) == Ok([I123, Abc])
  {
    assert TestParams([("foo", Some("123")), ("bar", Some("abc"))]) == map["foo" := "123", "bar" := "abc"];
    Parse123();
    WebOptionPair(TestParams([("foo", Some("123")), ("bar", Some("abc"))]));
  }

  lemma WebOptionsF()
    ensures WP.ParseUrl(OptionPair, TestParams([("f", Some("123"))])) == Ok([I123, None])
  {
    assert TestParams([("f", Some("123"))]) == map["f" := "123"];
    Parse123();
    WebOptionPair(TestParams([("f", Some("123"))]));
  }

  lemma WebOptionsB()
    ensures WP.ParseUrl(OptionPair, TestParams([("b", Some("abc"))])) == Ok([None, Abc])
  {
    assert TestParams([("b", Some("abc"))]) == map["b" := "abc"];
    WebOptionPair(TestParams([("b", Some("abc"))]));
  }

  lemma WebOptionsFB()
    ensures WP.ParseUrl(OptionPair, TestParams([("f", Some("123")), ("b", Some("abc"))])) == Ok([I123, Abc])
  {
    assert TestParams([("f", Some("123")), ("b", Some("abc"))]) == map["f" := "123", "b" := "abc"];
    Parse123();
    WebOptionPair(TestParams([("f", Some("123")), ("b", Some("abc"))]));
  }

  lemma WebOptionsBadValue()
    ensures var r := WP.ParseUrl(OptionPair, TestParams([("foo", Some("abc")), ("123", None)]));
      r.Err? && r.error.ValueParsingFailed? && r.error.argName == "foo"
  {
    assert TestParams([("foo", Some("abc")), ("123", None)]) == map["foo" := "abc", "123" := ""];
    assert "abc"[0] == 'a';
    ParseI32RejectsLetters("abc");
    WebOptionPair(TestParams([("foo", Some("abc")), ("123", None)]));
  }

  /** The `flags` test on the web parser. */
  method WebFlags() returns (foo: ArgId, bar: ArgId, got: seq<Result<WP.Parsed, ParsingError>>)
    ensures foo == ArgId(0) && bar == ArgId(1)
    ensures got == [
      Ok(WP.Parsed([None, None])),
      Ok(WP.Parsed([Yes, None])), Ok(WP.Parsed([None, Yes])), Ok(WP.Parsed([Yes, Yes])),
      Ok(WP.Parsed([Yes, None])), Ok(WP.Parsed([None, Yes])), Ok(WP.Parsed([Yes, Yes]))]
  {
    var parser := new WP.Parser();
    foo := parser.AddFlag(['f'], ["foo"]);
    bar := parser.AddFlag(['b'], ["bar"]);
    assert parser.args == FlagPair;
    var r0 := parser.ParseUrlParams(TestParams([]));
    WebFlagsNone();
    var r1 := parser.ParseUrlParams(TestParams([("foo", None)]));
    WebFlagsFoo();
    var r2 := parser.ParseUrlParams(TestParams([("bar", None)]));
    WebFlagsBar();
    var r3 := parser.ParseUrlParams(TestParams([("foo", None), ("bar", None)]));
    WebFlagsFooBar();
    var r4 := parser.ParseUrlParams(TestParams([("f", None)]));
    WebFlagsF();
    var r5 := parser.ParseUrlParams(TestParams([("b", None)]));
    WebFlagsB();
    var r6 := parser.ParseUrlParams(TestParams([("f", None), ("b", None)]));
    WebFlagsFB();
    got := [r0, r1, r2, r3, r4, r5, r6];
  }

  /** The `options` test on the web parser, with its line whose `foo` value is not a number. */
  method WebOptions() returns (foo: ArgId, bar: ArgId, got: seq<Result<WP.Parsed, ParsingError>>,
                               bad: Result<WP.Parsed, ParsingError>)
    ensures foo == ArgId(0) && bar == ArgId(1)
    ensures got == [
      Ok(WP.Parsed([None, None])),
      Ok(WP.Parsed([I123, None])), Ok(WP.Parsed([None, Abc])), Ok(WP.Parsed([I123, Abc])),
      Ok(WP.Parsed([I123, None])), Ok(WP.Parsed([None, Abc])), Ok(WP.Parsed([I123, Abc]))]
    ensures bad.Err? && bad.error.ValueParsingFailed? && bad.error.argName == "foo"
  {
    var parser := new WP.Parser();
    foo := parser.AddOptionWith(['f'], ["foo"], ParseI32);
    bar := parser.AddOption(['b'], ["bar"], Str);
    assert parser.args == OptionPair;
    var r0 := parser.ParseUrlParams(TestParams([]));
    WebOptionsNone();
    var r1 := parser.ParseUrlParams(TestParams([("foo", Some("123"))]));
    WebOptionsFoo();
    var r2 := parser.ParseUrlParams(TestParams([("bar", Some("abc"))]));
    WebOptionsBar();
    var r3 := parser.ParseUrlParams(TestParams([("foo", Some("123")), ("bar", Some("abc"))]));
    WebOptionsFooBar();
    var r4 := parser.ParseUrlParams(TestParams([("f", Some("123"))]));
    WebOptionsF();
    var r5 := parser.ParseUrlParams(TestParams([("b", Some("abc"))]));
    WebOptionsB();
    var r6 := parser.ParseUrlParams(TestParams([("f", Some("123")), ("b", Some("abc"))]));
    WebOptionsFB();
    got := [r0, r1, r2, r3, r4, r5, r6];
    bad := parser.ParseUrlParams(TestParams([("foo", Some("abc")), ("123", None)]));
    WebOptionsBadValue();
  }
}
