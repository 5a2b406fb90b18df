/** The wire vocabulary shared by the server (server.ts) and the client transport
    (socket.ts): the argument values a frame carries and the frame itself.
    JSON encoding is not modelled: a frame is the decoded object. */
module Wire {

  datatype Option<T> = None | Some(value: T)

  /** A JSON value as it appears in a frame's `data` field or in an argument list. */
  datatype Value =
    | Undefined              // no value; JSON.stringify leaves the field out
    | Null
    | Text(s: string)        // a JSON string
    | Other(json: string)    // any other non-iterable JSON value (number, boolean, object)
    | List(items: seq<Value>)

  /** The frame `{ event, data, ackId? }`; a reply frame has the empty event. */
  datatype Envelope = Envelope(event: string, data: Value, ackId: Option<int>)

  /** `args[0]` of a rest-parameter list: `undefined` when no argument was passed. */
  function FirstArg(args: seq<Value>): Value
  {
    if |args| > 0 then args[0] else Undefined
  }

  /** The arguments `...data` spreads into: the items of an array, the characters of a
      string; spreading any other value throws a TypeError (None). */
  function Spread(data: Value): (r: Option<seq<Value>>)
    ensures r.Some? <==> data.List? || data.Text?
    ensures data.List? ==> r == Some(data.items)
    ensures data.Text? ==> |r.value| == |data.s|
    ensures data.Text? ==> forall k :: 0 <= k < |data.s| ==> r.value[k] == Text([data.s[k]])
  {
    match data
    case List(items) => Some(items)
    case Text(s) => Some(seq(|s|, i requires 0 <= i < |s| => Text([s[i]])))
    case _ => None
  }

  /** The texts of a list of values, joined; values that are not texts add nothing. */
  function JoinTexts(vs: seq<Value>): string
  {
    if |vs| == 0 then "" else (if vs[0].Text? then vs[0].s else "") + JoinTexts(vs[1..])
  }

  /** Spreading a string gives its characters in order: joined again they are the
      string. */
  lemma {:induction false} SpreadTextRoundTrip(s: string)
    ensures JoinTexts(Spread(Text(s)).value) == s
    decreases |s|
  {
    if |s| > 0 {
      var parts := Spread(Text(s)).value;
      assert parts[1..] == Spread(Text(s[1..])).value;
      SpreadTextRoundTrip(s[1..]);
      assert s == [s[0]] + s[1..];
    }
  }
}
