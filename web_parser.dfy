/** The web command-line parser: arguments are read from the page's URL parameters, each
    registered argument looking up its own names. */
module WebParser {
  import opened Io
  import opened CmdLine

  /** `UrlSearchParams` as the parser reads it: each name present with its first value
      (the empty string when the parameter has none). */
  type Params = map<string, string>

  /** The parameter names of single-character names. */
  function ShortNames(short: seq<char>): (r: seq<string>)
    ensures |r| == |short| && forall i :: 0 <= i < |short| ==> r[i] == [short[i]]
  {
    if short == [] then [] else [[short[0]]] + ShortNames(short[1..])
  }

  /** Whether any of the names is present. */
  function AnyPresent(names: seq<string>, params: Params): (r: bool)
    ensures r <==> exists i :: 0 <= i < |names| && names[i] in params
  {
    if names == [] then false
    else if names[0] in params then true
    else
      var rest := AnyPresent(names[1..], params);
      assert forall i :: 1 <= i < |names| ==> names[i] == names[1..][i - 1];
      rest
  }

  /** A flag's `get`: `true` as soon as one of its names is present, and no value otherwise. */
  function FlagGet(short: seq<char>, long: seq<string>, params: Params): (r: Option<Value>)
    ensures r.Some? <==> (exists c :: c in short && [c] in params) || (exists n :: n in long && n in params)
    ensures r.Some? ==> r.value == BoolValue(true)
  {
    var names := ShortNames(short);
    if AnyPresent(names, params) || AnyPresent(long, params) then
      assert AnyPresent(names, params) ==> exists c :: c in short && [c] in params;
      Some(BoolValue(true))
    else
      assert forall c :: c in short ==> [c] !in params by {
        forall c | c in short ensures [c] !in params {
          var i :| 0 <= i < |short| && short[i] == c;
          assert names[i] == [c];
        }
      }
      None
  }

  /** `get_name`: an absent name gives nothing; a present one gives its parsed value, or
      `ValueParsingFailed` with that name. */
  function GetName(name: string, parse: ValueParser, params: Params): (r: Result<Option<Value>, ParsingError>)
    ensures name !in params ==> r == Ok(None)
    ensures name in params ==> match parse(params[name])
      case Ok(v) => r == Ok(Some(v))
      case Err(e) => r == Err(ValueParsingFailed(name, e))
  {
    if name !in params then Ok(None)
    else
      match parse(params[name])
      case Ok(v) => Ok(Some(v))
      case Err(e) => Err(ValueParsingFailed(name, e))
  }

  /** The names tried in turn: the first one present decides, with its value or its
      error; with none present there is no value. */
  function FirstGiven(names: seq<string>, parse: ValueParser, params: Params): (r: Result<Option<Value>, ParsingError>)
    ensures (forall i :: 0 <= i < |names| ==> names[i] !in params) ==> r == Ok(None)
    ensures forall k :: 0 <= k < |names| && names[k] in params && (forall j :: 0 <= j < k ==> names[j] !in params) ==>
      r == GetName(names[k], parse, params)
    ensures r.Err? ==> r.error.ValueParsingFailed? && r.error.argName in names
  {
    if names == [] then Ok(None)
    else
      var rest := FirstGiven(names[1..], parse, params);
      assert forall i :: 1 <= i < |names| ==> names[i] == names[1..][i - 1];
      match GetName(names[0], parse, params)
      case Err(e) => Err(e)
      case Ok(Some(v)) => Ok(Some(v))
      case Ok(None) => rest
  }

  /** The names a handler answers to, in the order an option tries them: long names
      first, then short ones. */
  function HandlerNames(h: Handler): seq<string>
  {
    h.long + ShortNames(h.short)
  }

  /** A handler's `get`. */
  function HandlerGet(h: Handler, params: Params): Result<Option<Value>, ParsingError>
  {
    match h
    case FlagHandler(short, long) => Ok(FlagGet(short, long, params))
    case OptionHandler(short, long, parse) => FirstGiven(long + ShortNames(short), parse, params)
  }

  /** What a handler's `get` gives: nothing when none of its names is present; a flag
      never fails and its value is `true`; an option's failure names one of its names. */
  lemma HandlerGetMeaning(h: Handler, params: Params)
    ensures (forall i :: 0 <= i < |HandlerNames(h)| ==> HandlerNames(h)[i] !in params) ==>
      HandlerGet(h, params) == Ok(None)
    ensures h.FlagHandler? ==> HandlerGet(h, params).Ok?
    ensures h.FlagHandler? && HandlerGet(h, params).value.Some? ==>
      HandlerGet(h, params).value.value == BoolValue(true)
    ensures HandlerGet(h, params).Err? ==>
      HandlerGet(h, params).error.ValueParsingFailed? && HandlerGet(h, params).error.argName in HandlerNames(h)
  {
    var names := HandlerNames(h);
    match h
    case FlagHandler(short, long) =>
      if forall i :: 0 <= i < |names| ==> names[i] !in params {
        forall n | n in long ensures n !in params {
          var i :| 0 <= i < |long| && long[i] == n;
          assert names[i] == n;
        }
        forall c | c in short ensures [c] !in params {
          var i :| 0 <= i < |short| && short[i] == c;
          assert names[|long| + i] == [c];
        }
      }
    case OptionHandler(short, long, parse) =>
      assert HandlerGet(h, params) == FirstGiven(names, parse, params);
  }

  /** `parse_url_params`: every handler's value in registration order; the first handler
      that fails fails the parse. */
  function ParseUrl(handlers: seq<Handler>, params: Params): (r: Result<seq<Option<Value>>, ParsingError>)
    ensures r.Ok? <==> forall i :: 0 <= i < |handlers| ==> HandlerGet(handlers[i], params).Ok?
    ensures r.Ok? ==> |r.value| == |handlers|
    ensures r.Ok? ==> forall i :: 0 <= i < |handlers| ==> r.value[i] == HandlerGet(handlers[i], params).value
    ensures r.Err? ==> exists i :: 0 <= i < |handlers| && HandlerGet(handlers[i], params) == Err(r.error) &&
                                  forall j :: 0 <= j < i ==> HandlerGet(handlers[j], params).Ok?
  {
    if handlers == [] then Ok([])
    else
      assert forall i :: 1 <= i < |handlers| ==> handlers[i] == handlers[1..][i - 1];
      match HandlerGet(handlers[0], params)
      case Err(e) => Err(e)
      case Ok(v) =>
        match ParseUrl(handlers[1..], params)
        case Err(e) =>
          ghost var i :| 0 <= i < |handlers| - 1 && HandlerGet(handlers[1..][i], params) == Err(e) &&
            forall j :: 0 <= j < i ==> HandlerGet(handlers[1..][j], params).Ok?;
          assert HandlerGet(handlers[i + 1], params) == Err(e);
          Err(e)
        case Ok(vs) => Ok([v] + vs)
  }

  /** `Parsed`: one slot per registered argument. */
  datatype Parsed = Parsed(values: seq<Option<Value>>)
  {
    function Get(arg: ArgId): (r: Option<Value>)
      requires arg.id < |values|
      ensures r == values[arg.id]
    {
      values[arg.id]
    }
  }

  class Parser {
    var args: seq<Handler>

    constructor ()
      ensures args == []
    {
      args := [];
    }

    method AddFlag(short: seq<char>, long: seq<string>) returns (id: ArgId)
      modifies this
      ensures id.id == |old(args)|
      ensures args == old(args) + [FlagHandler(short, long)]
    {
      id := ArgId(|args|);
      args := args + [FlagHandler(short, long)];
    }

    /** `add_option`: an option parsed by its type's `FromStr`. */
    method AddOption(short: seq<char>, long: seq<string>, t: ValueType) returns (id: ArgId)
      modifies this
      ensures id.id == |old(args)|
      ensures args == old(args) + [OptionHandler(short, long, FromStr(t))]
    {
      id := AddOptionWith(short, long, FromStr(t));
    }

    method AddOptionWith(short: seq<char>, long: seq<string>, parse: ValueParser) returns (id: ArgId)
      modifies this
      ensures id.id == |old(args)|
      ensures args == old(args) + [OptionHandler(short, long, parse)]
    {
      id := ArgId(|args|);
      args := args + [OptionHandler(short, long, parse)];
    }

    /** `parse_url_params` over this parser's arguments. */
    function ParseUrlParams(params: Params): (r: Result<Parsed, ParsingError>)
      reads this
      ensures r.Ok? <==> ParseUrl(args, params).Ok?
      ensures r.Ok? ==> r.value.values == ParseUrl(args, params).value
      ensures r.Err? ==> r.error == ParseUrl(args, params).error
    {
      match ParseUrl(args, params)
      case Ok(values) => Ok(Parsed(values))
      case Err(e) => Err(e)
    }
  }

  /** Two parameter sets that agree on the given names. */
  predicate Agree(names: seq<string>, p: Params, q: Params)
  {
    forall i :: 0 <= i < |names| ==>
      (names[i] in p <==> names[i] in q) && (names[i] in p ==> p[names[i]] == q[names[i]])
  }

  lemma {:induction false} FirstGivenAgree(names: seq<string>, parse: ValueParser, p: Params, q: Params)
    requires Agree(names, p, q)
    ensures FirstGiven(names, parse, p) == FirstGiven(names, parse, q)
    decreases |names|
  {
    if names != [] {
      assert Agree(names[1..], p, q) by {
        forall i | 0 <= i < |names[1..]| ensures names[1..][i] == names[i + 1] {
        }
      }
      FirstGivenAgree(names[1..], parse, p, q);
      assert GetName(names[0], parse, p) == GetName(names[0], parse, q) by {
        assert (names[0] in p <==> names[0] in q) && (names[0] in p ==> p[names[0]] == q[names[0]]);
      }
    }
  }

  lemma FlagGetAgree(short: seq<char>, long: seq<string>, p: Params, q: Params)
    requires Agree(long + ShortNames(short), p, q)
    ensures FlagGet(short, long, p) == FlagGet(short, long, q)
  {
    var names := long + ShortNames(short);
    forall n | n in long ensures (n in p <==> n in q) {
      var i :| 0 <= i < |long| && long[i] == n;
      assert names[i] == n;
    }
    forall c | c in short ensures ([c] in p <==> [c] in q) {
      var i :| 0 <= i < |short| && short[i] == c;
      assert names[|long| + i] == [c];
    }
  }

  /** Only the parameters some handler names are inspected: parameter sets that agree on
      those give the same parse, so other parameters never cause an error. */
  lemma {:induction false} UnknownParamsIgnored(handlers: seq<Handler>, p: Params, q: Params)
    requires forall k :: 0 <= k < |handlers| ==> Agree(HandlerNames(handlers[k]), p, q)
    ensures ParseUrl(handlers, p) == ParseUrl(handlers, q)
    decreases |handlers|
  {
    if handlers != [] {
      var h := handlers[0];
      match h {
        case FlagHandler(short, long) => FlagGetAgree(short, long, p, q);
        case OptionHandler(short, long, parse) => FirstGivenAgree(long + ShortNames(short), parse, p, q);
      }
      assert forall k :: 0 <= k < |handlers[1..]| ==> handlers[1..][k] == handlers[k + 1];
      UnknownParamsIgnored(handlers[1..], p, q);
    }
  }

  /** Adding a parameter no handler names changes nothing. */
  lemma ExtraParamIgnored(handlers: seq<Handler>, params: Params, name: string, value: string)
    requires forall k :: 0 <= k < |handlers| ==> name !in HandlerNames(handlers[k])
    ensures ParseUrl(handlers, params[name := value]) == ParseUrl(handlers, params)
  {
    forall k | 0 <= k < |handlers| ensures Agree(HandlerNames(handlers[k]), params[name := value], params) {
      var names := HandlerNames(handlers[k]);
      forall i | 0 <= i < |names| ensures names[i] != name {
      }
    }
    UnknownParamsIgnored(handlers, params[name := value], params);
  }
}
