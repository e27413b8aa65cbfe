/**
 * The shapes of a hosted-model reply that the agents inspect: the parts of the first
 * candidate's content, each either text or a function call with named arguments.
 * The model itself is not modelled: its replies are inputs.
 */
module GenAi {
  import opened Wrappers
  import opened Text

  /** One argument value of a function call: the schemas declare strings and an integer. */
  datatype Arg = Str(s: string) | Int(i: int)

  type Args = map<string, Arg>

  datatype FunctionCall = FunctionCall(name: string, args: Args)

  datatype Part = TextPart(text: string) | CallPart(call: FunctionCall)

  /** How an f-string renders an argument value. */
  function Render(a: Arg): string {
    match a
    case Str(s) => s
    case Int(i) => IntToString(i)
  }

  /** `args.get(key, default)` for an argument used as a string. */
  function GetString(args: Args, key: string, default: string): (r: string)
    ensures key !in args ==> r == default
    ensures key in args && args[key].Str? ==> r == args[key].s
  {
    if key in args then Render(args[key]) else default
  }

  /** The call a part carries, as a sequence of zero or one calls. */
  function CallOf(p: Part): seq<FunctionCall> {
    match p
    case CallPart(c) => [c]
    case TextPart(_) => []
  }

  /** The function calls among the parts, in order (the `function_call` parts that are set). */
  function Calls(parts: seq<Part>): (calls: seq<FunctionCall>)
    ensures |calls| <= |parts|
  {
    if parts == [] then [] else CallOf(parts[0]) + Calls(parts[1..])
  }

  /** Collecting the calls of one more part extends the collected calls by at most that call. */
  lemma {:induction false} CallsSnoc(parts: seq<Part>, p: Part)
    ensures Calls(parts + [p]) == Calls(parts) + CallOf(p)
    decreases |parts|
  {
    if parts == [] {
      assert [p][1..] == [];
      assert Calls([p]) == CallOf(p) + Calls([]);
    } else {
      var q := parts + [p];
      assert q[0] == parts[0];
      assert q[1..] == parts[1..] + [p];
      CallsSnoc(parts[1..], p);
      calc {
        Calls(q);
        CallOf(parts[0]) + Calls(parts[1..] + [p]);
        CallOf(parts[0]) + (Calls(parts[1..]) + CallOf(p));
        (CallOf(parts[0]) + Calls(parts[1..])) + CallOf(p);
      }
    }
  }

  /** The index of the first function-call part, if there is one. */
  function FirstCallIndex(parts: seq<Part>): (r: Option<nat>)
    ensures r.Some? ==> r.value < |parts| && parts[r.value].CallPart?
    ensures r.Some? ==> forall k :: 0 <= k < r.value ==> parts[k].TextPart?
    ensures r.None? ==> forall k :: 0 <= k < |parts| ==> parts[k].TextPart?
  {
    if parts == [] then None
    else if parts[0].CallPart? then Some(0)
    else match FirstCallIndex(parts[1..])
      case None => None
      case Some(k) => Some(k + 1)
  }

  /** The first function call is the first element of all the calls, in the same order. */
  lemma {:induction false} FirstCallIsFirstOfCalls(parts: seq<Part>)
    ensures FirstCallIndex(parts).None? <==> Calls(parts) == []
    ensures FirstCallIndex(parts).Some? ==>
      Calls(parts)[0] == parts[FirstCallIndex(parts).value].call
    decreases |parts|
  {
    if parts != [] && parts[0].TextPart? {
      FirstCallIsFirstOfCalls(parts[1..]);
    }
  }
}
