/** The part of the `lexopt` argument lexer the standard parser relies on. The
    command line is taken as already split into items: a short option, a long option
    with the value attached to it by '=', if any, or a plain value. The lexer hands them
    out with `next`, and `value` takes the next item raw, even one that looks like an
    option. */
module Lexopt {
  import opened Io
  import Utf8

  /** One command-line item as the lexer splits it. */
  datatype Item =
    | ShortItem(c: char)
    | LongItem(name: string, attached: Option<Bytes>)
    | PlainItem(raw: Bytes)

  /** `lexopt::Arg`: what `next` returns. */
  datatype Arg = Short(c: char) | Long(name: string) | Value(raw: Bytes)

  /** The `lexopt::Error`s the parser can meet. */
  datatype LexError =
    | UnexpectedValue(option: string, value: Bytes)
    | MissingValue

  /** The item's text as `value` hands it out. */
  function RawText(item: Item): Bytes
  {
    match item
    case ShortItem(c) => Utf8.Encode(['-', c])
    case LongItem(name, None) => Utf8.Encode("--" + name)
    case LongItem(name, Some(v)) => Utf8.Encode("--" + name + "=") + v
    case PlainItem(raw) => raw
  }

  /** The lexer's state: the items not yet handed out, and the value attached to the
      long option `next` returned last, while `value` has not taken it. */
  datatype LexState = LexState(items: seq<Item>, pending: Option<(string, Bytes)>)
  {
    /** Decreases with every step that does not end the parse. */
    function Measure(): nat
    {
      2 * |items| + (if pending.Some? then 1 else 0)
    }
  }

  /** `Parser::next`: a long option's unused attached value is an error; otherwise the
      next item, or None once they are all handed out. */
  function NextArg(s: LexState): (r: (Result<Option<Arg>, LexError>, LexState))
    ensures r.0.Ok? && r.0.value.Some? ==> r.1.Measure() < s.Measure()
    ensures r.0.Ok? && r.0.value.None? <==> s.items == [] && s.pending.None?
    ensures r.0.Err? <==> s.pending.Some?
  {
    if s.pending.Some? then
      (Err(UnexpectedValue(s.pending.value.0, s.pending.value.1)), LexState(s.items, None))
    else if s.items == [] then (Ok(None), s)
    else
      var rest := s.items[1..];
      match s.items[0]
      case ShortItem(c) => (Ok(Some(Short(c))), LexState(rest, None))
      case LongItem(name, None) => (Ok(Some(Long(name))), LexState(rest, None))
      case LongItem(name, Some(v)) => (Ok(Some(Long(name))), LexState(rest, Some((name, v))))
      case PlainItem(raw) => (Ok(Some(Value(raw))), LexState(rest, None))
  }

  /** `Parser::value`: the attached value if there is one, else the next item whole. */
  function TakeValue(s: LexState): (r: (Result<Bytes, LexError>, LexState))
    ensures r.1.Measure() <= s.Measure()
    ensures r.0.Err? <==> s.pending.None? && s.items == []
    ensures s.pending.Some? ==> r.0 == Ok(s.pending.value.1)
    ensures s.pending.None? && s.items != [] ==> r.0 == Ok(RawText(s.items[0]))
  {
    if s.pending.Some? then (Ok(s.pending.value.1), LexState(s.items, None))
    else if s.items == [] then (Err(MissingValue), s)
    else (Ok(RawText(s.items[0])), LexState(s.items[1..], None))
  }

  /** `lexopt::Parser`, over the items of one command line. */
  class Lexer {
    var items: seq<Item>
    var pending: Option<(string, Bytes)>

    function State(): LexState
      reads this
    {
      LexState(items, pending)
    }

    /** `Parser::from_iter`, with the program name already skipped. */
    constructor (items: seq<Item>)
      ensures State() == LexState(items, None)
    {
      this.items := items;
      pending := None;
    }

    method Next() returns (r: Result<Option<Arg>, LexError>)
      modifies this
      ensures (r, State()) == NextArg(old(State()))
    {
      if pending.Some? {
        r := Err(UnexpectedValue(pending.value.0, pending.value.1));
        pending := None;
        return;
      }
      if items == [] {
        return Ok(None);
      }
      var item := items[0];
      items := items[1..];
      match item {
        case ShortItem(c) => r := Ok(Some(Short(c)));
        case LongItem(name, attached) =>
          r := Ok(Some(Long(name)));
          if attached.Some? {
            pending := Some((name, attached.value));
          }
        case PlainItem(raw) => r := Ok(Some(Arg.Value(raw)));
      }
    }

    method Value() returns (r: Result<Bytes, LexError>)
      modifies this
      ensures (r, State()) == TakeValue(old(State()))
    {
      if pending.Some? {
        r := Ok(pending.value.1);
        pending := None;
        return;
      }
      if items == [] {
        return Err(MissingValue);
      }
      r := Ok(RawText(items[0]));
      items := items[1..];
    }
  }

  /** `value` takes an option-looking item as a value: "-x" and "--name" come back as text. */
  lemma ValueTakesOptionText(c: char, name: string, rest: seq<Item>)
    ensures TakeValue(LexState([ShortItem(c)] + rest, None)).0 == Ok(Utf8.Encode(['-', c]))
    ensures TakeValue(LexState([LongItem(name, None)] + rest, None)).0 == Ok(Utf8.Encode("--" + name))
  {
  }
}
