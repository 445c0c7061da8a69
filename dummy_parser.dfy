/** The dummy command-line parser: it hands out argument ids and never has a value for
    any of them. */
module DummyParser {
  import opened Io
  import opened CmdLine

  /** `DummyParsed`: no argument has a value. */
  datatype DummyParsed = DummyParsed
  {
    function Get(arg: ArgId): (r: Option<Value>)
      ensures r.None?
    {
      None
    }
  }

  class Parser {
    /** The number of arguments registered so far. */
    var numArgs: nat

    constructor ()
      ensures numArgs == 0
    {
      numArgs := 0;
    }

    method AddFlag(short: seq<char>, long: seq<string>) returns (id: ArgId)
      modifies this
      ensures id.id == old(numArgs) && numArgs == old(numArgs) + 1
    {
      id := ArgId(numArgs);
      numArgs := numArgs + 1;
    }

    method AddOption(short: seq<char>, long: seq<string>, t: ValueType) returns (id: ArgId)
      modifies this
      ensures id.id == old(numArgs) && numArgs == old(numArgs) + 1
    {
      id := AddOptionWith(short, long, FromStr(t));
    }

    method AddOptionWith(short: seq<char>, long: seq<string>, parse: ValueParser) returns (id: ArgId)
      modifies this
      ensures id.id == old(numArgs) && numArgs == old(numArgs) + 1
    {
      id := ArgId(numArgs);
      numArgs := numArgs + 1;
    }

    /** `parse` never fails. */
    function Parse(): (r: Result<DummyParsed, ParsingError>)
      ensures r.Ok?
    {
      Ok(DummyParsed)
    }
  }

  /** The `flags` test: two flags get ids 0 and 1, and neither has a value. */
  method DummyFlags() returns (foo: ArgId, bar: ArgId, values: seq<Option<Value>>)
    ensures foo == ArgId(0) && bar == ArgId(1)
    ensures values == [None, None]
  {
    var parser := new Parser();
    foo := parser.AddFlag(['f'], ["foo"]);
    bar := parser.AddFlag(['b'], ["bar"]);
    var parsed := parser.Parse();
    values := [parsed.value.Get(foo), parsed.value.Get(bar)];
  }

  /** The `options` test: two options get ids 0 and 1, and neither has a value. */
  method DummyOptions() returns (foo: ArgId, bar: ArgId, values: seq<Option<Value>>)
    ensures foo == ArgId(0) && bar == ArgId(1)
    ensures values == [None, None]
  {
    var parser := new Parser();
    foo := parser.AddOptionWith(['f'], ["foo"], ParseI32);
    bar := parser.AddOption(['b'], ["bar"], Str);
    var parsed := parser.Parse();
    values := [parsed.value.Get(foo), parsed.value.Get(bar)];
  }
}
