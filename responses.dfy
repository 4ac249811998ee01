/**
 * How the operations turn an envelope into what their caller sees: the
 * envelope itself on success, or an exception whose message is a fixed text
 * or the API's error descriptions joined by "\r\n". Every operation checks
 * `httpCode == 200` first; what it does otherwise is a short table of
 * status tests (`Handling`), interpreted by `Respond`.
 */
module Responses {
  import opened Strings
  import opened PhpValues
  import opened Engine

  const Crlf := "\r\n"

  /** How a call of an operation ends. */
  datatype Outcome =
    /** the envelope `execute` built is returned */
    | Returned(envelope: Envelope)
    /** `['httpCode' => ..., 'errors' => [...]]`, returned by `atualizaCobranca` on status 400 */
    | ReturnedErrors(httpCode: int, errors: seq<Json>)
    /** an `Exception` with this message */
    | Thrown(message: string)
    /** an `Exception` whose message is `json_encode` of the envelope (`enviaDocumento`) */
    | ThrownEnvelope(envelope: Envelope)
    /** an uncaught PHP `Error` ends the script */
    | Crashed

  // ------------------------------------------------------------ error lists

  /**
   * `array_map(fn($item) => $item->description, $body->errors)`: the
   * description of each reported error. `array_map` refuses anything but an
   * array (a TypeError), which is what `errors` is when the body has none.
   */
  function Descriptions(body: Body): (r: Result<seq<Json>>)
    ensures r.Ok? <==> BodyProp(body, "errors").JArr?
    ensures r.Ok? ==> (|r.value| == |BodyProp(body, "errors").items| &&
      forall i :: 0 <= i < |r.value| ==> r.value[i] == Prop(BodyProp(body, "errors").items[i], "description"))
  {
    var errors := BodyProp(body, "errors");
    if errors.JArr? then
      Ok(seq(|errors.items|, i requires 0 <= i < |errors.items| => Prop(errors.items[i], "description")))
    else Fatal
  }

  /** The strings `implode` makes of the descriptions; a `stdClass` object cannot be converted. */
  function Texts(descs: seq<Json>): (r: Option<seq<string>>)
    ensures r.Some? <==> forall i :: 0 <= i < |descs| ==> !descs[i].JObj?
    ensures r.Some? ==> (|r.value| == |descs| &&
      forall i :: 0 <= i < |descs| ==> Some(r.value[i]) == Stringify(descs[i]))
  {
    if |descs| == 0 then Some([])
    else
      match (Stringify(descs[0]), Texts(descs[1..]))
      case (Some(t), Some(ts)) => Some([t] + ts)
      case _ => None
  }

  /** `implode("\r\n", $errors)` of the descriptions. */
  function ErrorText(descs: seq<Json>): (r: Result<string>)
    ensures r.Fatal? <==> exists i :: 0 <= i < |descs| && descs[i].JObj?
  {
    match Texts(descs)
    case Some(ts) => Ok(Join(ts, Crlf))
    case None => Fatal
  }

  /** Each part followed by "\r", except the last. */
  function CarriageEnded(parts: seq<string>): (r: seq<string>)
    ensures |r| == |parts|
    ensures forall i :: 0 <= i < |parts| - 1 ==> r[i] == parts[i] + "\r"
    ensures |parts| > 0 ==> r[|parts| - 1] == parts[|parts| - 1]
  {
    if |parts| <= 1 then parts else [parts[0] + "\r"] + CarriageEnded(parts[1..])
  }

  lemma {:induction false} JoinCrlf(parts: seq<string>)
    ensures Join(parts, Crlf) == Join(CarriageEnded(parts), "\n")
    decreases |parts|
  {
    if |parts| > 1 {
      JoinCrlf(parts[1..]);
      var rest := CarriageEnded(parts[1..]);
      assert CarriageEnded(parts) == [parts[0] + "\r"] + rest;
      assert |rest| >= 1;
      assert (parts[0] + "\r") + "\n" == parts[0] + Crlf;
    }
  }

  lemma NoLineFeedAdded(s: string)
    requires '\n' !in s
    ensures '\n' !in s + "\r"
  {
    assert forall x :: x in s + "\r" ==> x in s || x == '\r';
  }

  /**
   * The message lists its parts in order: cutting it at each line feed gives
   * back every part, each but the last still carrying its "\r", as long as no
   * part holds a line feed itself.
   */
  lemma MessageLines(parts: seq<string>)
    requires |parts| >= 1
    requires forall i :: 0 <= i < |parts| ==> '\n' !in parts[i]
    ensures Split(Join(parts, Crlf), '\n') == CarriageEnded(parts)
  {
    JoinCrlf(parts);
    var marked := CarriageEnded(parts);
    forall i | 0 <= i < |marked| ensures '\n' !in marked[i] {
      MarkedAvoids(parts, i);
    }
    SplitJoin(marked, '\n');
  }

  /** Ending a part with "\r" adds no line feed. */
  lemma MarkedAvoids(parts: seq<string>, i: int)
    requires 0 <= i < |parts| && '\n' !in parts[i]
    ensures '\n' !in CarriageEnded(parts)[i]
  {
    if i < |parts| - 1 {
      NoLineFeedAdded(parts[i]);
    }
  }

  /** When the API sends plain strings, the message is those strings joined by "\r\n". */
  lemma StringDescriptions(descs: seq<Json>, texts: seq<string>)
    requires |descs| == |texts|
    requires forall i :: 0 <= i < |descs| ==> descs[i] == JStr(texts[i])
    ensures ErrorText(descs) == Ok(Join(texts, Crlf))
  {
    var ts := Texts(descs).value;
    assert ts == texts;
  }

  // --------------------------------------------------------- status tables

  /** One test an operation applies to a non-200 envelope, in source order. */
  datatype Test =
    /** `if ($data['httpCode'] == status) throw new Exception(message)` */
    | FailOn(status: int, message: string)
    /** `if ($data['httpCode'] == status) return $data` */
    | ReturnOn(status: int)
    /** `if ($data['httpCode'] == status) return ['httpCode' => ..., 'errors' => descriptions]` */
    | ErrorListOn(status: int)
    /** `if (isset($data['body']->errors))` throw the descriptions */
    | FailWithErrorsIfSet
    /** `if (isset($data['body']->errors))` collect the descriptions, then throw them only when there are some */
    | FailWithErrorsIfAny

  /** What an operation does once no test applied. */
  datatype Fallback =
    /** a fixed message */
    | Fail(message: string)
    /** the descriptions, without looking whether `errors` is there */
    | FailWithErrors
    /** `return $data` whatever the status */
    | ReturnAnyway
    /** `throw new Exception(json_encode($data))` */
    | FailWithEnvelope

  datatype Handling = Handling(tests: seq<Test>, fallback: Fallback)

  /** The operations that hand back the envelope whatever its status. */
  const PassThrough := Handling([], ReturnAnyway)

  /** Throw the descriptions. */
  function RaiseErrors(env: Envelope): (o: Outcome)
    ensures o.Crashed? || o.Thrown?
    ensures o.Crashed? <==> Descriptions(env.body).Fatal? || ErrorText(Descriptions(env.body).value).Fatal?
  {
    match Descriptions(env.body)
    case Fatal => Crashed
    case Ok(descs) =>
      match ErrorText(descs)
      case Fatal => Crashed
      case Ok(text) => Thrown(text)
  }

  /** The outcome of a non-200 envelope, the tests tried in order. */
  function Apply(env: Envelope, tests: seq<Test>, fallback: Fallback): (o: Outcome)
    ensures o.Returned? ==> o.envelope == env
    ensures o.ThrownEnvelope? ==> o.envelope == env
  {
    if |tests| == 0 then
      match fallback
      case Fail(message) => Thrown(message)
      case FailWithErrors => RaiseErrors(env)
      case ReturnAnyway => Returned(env)
      case FailWithEnvelope => ThrownEnvelope(env)
    else
      var rest := Apply(env, tests[1..], fallback);
      var isSet := BodyProp(env.body, "errors") != JNull;
      match tests[0]
      case FailOn(status, message) => if env.httpCode == status then Thrown(message) else rest
      case ReturnOn(status) => if env.httpCode == status then Returned(env) else rest
      case ErrorListOn(status) =>
        if env.httpCode != status then rest
        else (
          match Descriptions(env.body)
          case Fatal => Crashed
          case Ok(descs) => ReturnedErrors(env.httpCode, descs))
      case FailWithErrorsIfSet => if isSet then RaiseErrors(env) else rest
      case FailWithErrorsIfAny =>
        if !isSet then rest
        else (
          match Descriptions(env.body)
          case Fatal => Crashed
          case Ok(descs) => if descs == [] then rest else RaiseErrors(env))
  }

  /** An operation's answer to an envelope: status 200 returns it, anything else goes through the table. */
  function Respond(env: Envelope, h: Handling): (o: Outcome)
    ensures env.httpCode == 200 ==> o == Returned(env)
    ensures o.Returned? ==> o.envelope == env
  {
    if env.httpCode == 200 then Returned(env) else Apply(env, h.tests, h.fallback)
  }

  /** The statuses at which a table hands the envelope back. */
  predicate ReturnsAt(tests: seq<Test>, fallback: Fallback, status: int)
  {
    fallback.ReturnAnyway? || exists i :: 0 <= i < |tests| && tests[i] == ReturnOn(status)
  }

  /**
   * An operation returns the envelope only on success, unless its table says
   * to return it at that status.
   */
  lemma {:induction false} ReturnedOnlyOnSuccess(env: Envelope, tests: seq<Test>, fallback: Fallback)
    ensures Apply(env, tests, fallback).Returned? ==> ReturnsAt(tests, fallback, env.httpCode)
    decreases |tests|
  {
    if |tests| > 0 {
      ReturnedOnlyOnSuccess(env, tests[1..], fallback);
      if Apply(env, tests[1..], fallback).Returned? && !fallback.ReturnAnyway? {
        var i :| 0 <= i < |tests[1..]| && tests[1..][i] == ReturnOn(env.httpCode);
        assert tests[i + 1] == ReturnOn(env.httpCode);
      }
    }
  }

  /** A fixed message for the status at hand, tested first, is thrown whatever the later tests say. */
  lemma FirstFailOnDecides(env: Envelope, tests: seq<Test>, fallback: Fallback)
    requires |tests| > 0 && tests[0].FailOn? && env.httpCode == tests[0].status
    ensures Apply(env, tests, fallback) == Thrown(tests[0].message)
  {
  }

  /** Throwing the descriptions crashes exactly when `errors` is not a list or some description is an object; otherwise the message is their text. */
  lemma RaiseErrorsMessage(env: Envelope)
    requires BodyProp(env.body, "errors").JArr?
    requires forall i :: 0 <= i < |BodyProp(env.body, "errors").items| ==>
      !Prop(BodyProp(env.body, "errors").items[i], "description").JObj?
    ensures RaiseErrors(env) == Thrown(Join(Texts(Descriptions(env.body).value).value, Crlf))
  {
    var descs := Descriptions(env.body).value;
    assert forall i :: 0 <= i < |descs| ==> !descs[i].JObj?;
  }
}
