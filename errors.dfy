/**
 * The application error taxonomy: `ICIUError` records with a code and a
 * message, four predefined errors, and the two folds `Code` and `Msg` that
 * turn any Go `error` into the code and message put on the wire.
 *
 * A Go `error` is one of: nil, an `*ICIUError`, or any other error value
 * (only its text is known).  A typed-nil `*ICIUError` is not representable.
 */
module Errors {
  import Strings

  datatype Error =
    | NoError                       // a nil error
    | App(code: int, msg: string)   // an *ICIUError
    | Other(text: string)           // any other error; `text` is its Error() string

  const CodeSystem := 100
  const CodeUnknown := 101
  const CodeNoAuth := 1000
  const CodeAuthFail := 1001

  const ErrSystem: Error := New(CodeSystem, "系统错误")
  const ErrUnknown: Error := New(CodeUnknown, "未知错误")
  const ErrNoAuth: Error := New(CodeNoAuth, "没有认证信息")
  const ErrAuthFail: Error := New(CodeAuthFail, "认证信息鉴权失败")

  /** `New(code, msg)`: a fresh application error. */
  function New(code: int, msg: string): Error {
    App(code, msg)
  }

  /**
   * `Code(e)`: the wire code of an error.  Success (0) comes only from a nil
   * error or an application error created with code 0.
   */
  function Code(e: Error): (c: int)
    ensures c == 0 <==> e == NoError || (e.App? && e.code == 0)
    ensures e.Other? ==> c == CodeUnknown
  {
    match e
    case NoError => 0
    case App(code, _) => code
    case Other(_) => CodeUnknown
  }

  /**
   * `Msg(e)`: the wire message of an error.  Anything that is not an
   * application error is answered with the message of `ErrUnknown`, by one
   * recursive call that lands in the application branch.
   */
  function Msg(e: Error): (m: string)
    ensures e.Other? ==> m == "未知错误"
    decreases if e.Other? then 1 else 0
  {
    match e
    case NoError => ""
    case App(_, msg) => msg
    case Other(_) => Msg(ErrUnknown)
  }

  /** `(*ICIUError).Error()`: "ICIU Code: <code>, Msg: <msg>". */
  function ErrorText(e: Error): (t: string)
    requires e.App?
    ensures "ICIU Code: " <= t
    ensures |e.msg| <= |t| && t[|t| - |e.msg|..] == e.msg
  {
    "ICIU Code: " + Strings.FormatInt(e.code) + ", Msg: " + e.msg
  }

  // ---------------------------------------------------------------------------
  // Properties of the taxonomy

  /** A nil error is success: code 0 and no message. */
  lemma NilIsSuccess()
    ensures Code(NoError) == 0 && Msg(NoError) == ""
  {
  }

  /** Round trip: the folds read back what `New` was given. */
  lemma NewRoundTrip(code: int, msg: string)
    ensures New(code, msg).App?
    ensures Code(New(code, msg)) == code && Msg(New(code, msg)) == msg
  {
  }

  /** An application error's own fields go on the wire. */
  lemma AppFieldsPassThrough(code: int, msg: string)
    ensures Code(App(code, msg)) == code && Msg(App(code, msg)) == msg
  {
  }

  /**
   * Every other error becomes `ErrUnknown` on the wire, whatever its text:
   * its own text never reaches the code or the message.
   */
  lemma OtherErrorsFoldToUnknown(text: string, text': string)
    ensures Code(Other(text)) == CodeUnknown == Code(ErrUnknown)
    ensures Msg(Other(text)) == Msg(ErrUnknown) == "未知错误"
    ensures Code(Other(text)) == Code(Other(text')) && Msg(Other(text)) == Msg(Other(text'))
  {
  }

  /** The four taxonomy codes are distinct and each predefined error carries its own. */
  lemma PredefinedErrors()
    ensures |{CodeSystem, CodeUnknown, CodeNoAuth, CodeAuthFail}| == 4
    ensures Code(ErrSystem) == CodeSystem && Msg(ErrSystem) == "系统错误"
    ensures Code(ErrUnknown) == CodeUnknown && Msg(ErrUnknown) == "未知错误"
    ensures Code(ErrNoAuth) == CodeNoAuth && Msg(ErrNoAuth) == "没有认证信息"
    ensures Code(ErrAuthFail) == CodeAuthFail && Msg(ErrAuthFail) == "认证信息鉴权失败"
  {
  }

  /** The text of an application error starts with "ICIU Code: " followed by the code's numeral. */
  lemma ErrorTextShape(e: Error)
    requires e.App?
    ensures var t := ErrorText(e); var p := "ICIU Code: " + Strings.FormatInt(e.code);
      |p| <= |t| && t[..|p|] == p && t[|p|..] == ", Msg: " + e.msg
  {
  }

  /** The number of characters before the first ',' of `t` (all of them when there is none). */
  function LengthBeforeComma(t: string): (n: nat)
    ensures n <= |t|
  {
    if t == [] || t[0] == ',' then 0 else 1 + LengthBeforeComma(t[1..])
  }

  lemma {:induction false} LengthBeforeCommaAfter(x: string, rest: string)
    requires forall k | 0 <= k < |x| :: x[k] != ','
    requires rest != [] && rest[0] == ','
    ensures LengthBeforeComma(x + rest) == |x|
    decreases |x|
  {
    if x == [] {
      assert x + rest == rest;
    } else {
      assert (x + rest)[1..] == x[1..] + rest;
      LengthBeforeCommaAfter(x[1..], rest);
    }
  }

  /** In "<numeral>, Msg: <msg>" the first ',' ends the numeral. */
  lemma LengthBeforeCommaOfNumeral(code: int, msg: string)
    ensures var x := Strings.FormatInt(code); LengthBeforeComma(x + ", Msg: " + msg) == |x|
  {
    var x := Strings.FormatInt(code);
    assert x + ", Msg: " + msg == x + (", Msg: " + msg);
    LengthBeforeCommaAfter(x, ", Msg: " + msg);
  }

  /** Two application errors with the same text have the same code and message. */
  lemma ErrorTextInjective(a: Error, b: Error)
    requires a.App? && b.App?
    requires ErrorText(a) == ErrorText(b)
    ensures a == b
  {
    var x, y := Strings.FormatInt(a.code), Strings.FormatInt(b.code);
    var sep := ", Msg: ";
    var ta, tb := x + sep + a.msg, y + sep + b.msg;
    var prefix := "ICIU Code: ";
    assert ErrorText(a) == prefix + ta;
    assert ErrorText(b) == prefix + tb;
    assert ta == (prefix + ta)[|prefix|..];
    assert tb == (prefix + tb)[|prefix|..];
    assert ta == tb;
    // The numeral holds no ',', so the first ',' of the text ends it.
    LengthBeforeCommaOfNumeral(a.code, a.msg);
    LengthBeforeCommaOfNumeral(b.code, b.msg);
    assert x == ta[..|x|] == tb[..|y|] == y;
    Strings.FormatIntInjective(a.code, b.code);
    assert a.msg == ta[|x| + |sep|..] == tb[|y| + |sep|..] == b.msg;
  }
}
