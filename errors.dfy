/** The error values that reach the resource's diagnostics, and their texts. */
module Errors {
  import Decimal

  datatype Error =
    | TransportError(reason: string)          // the HTTP exchange failed, or the body could not be read
    | StatusError(status: int, body: string)  // the service answered with a status other than 200
    | DecodeError(reason: string)             // the body is not the JSON the client expects
    | FileError(path: string)                 // a declared path does not exist

  const StatusLabel: string := "status: "
  const BodyLabel: string := ", body: "
  const OpenLabel: string := "open "
  const NotExistText: string := ": no such file or directory"

  /**
   * `err.Error()`: a service error as `fmt.Errorf("status: %d, body: %s")`
   * renders it, a missing file as `os.ReadFile` and `os.Open` report it.
   */
  function Message(e: Error): (m: string)
    ensures e.TransportError? || e.DecodeError? ==> m == e.reason
    ensures e.StatusError? ==>
              && |m| == 8 + |Decimal.IntText(e.status)| + 8 + |e.body|
              && m[..8] == StatusLabel && m[8..8 + |Decimal.IntText(e.status)|] == Decimal.IntText(e.status)
              && m[8 + |Decimal.IntText(e.status)|..16 + |Decimal.IntText(e.status)|] == BodyLabel
              && m[|m| - |e.body|..] == e.body
    ensures e.FileError? ==>
              && |m| == 5 + |e.path| + 27 && m[..5] == OpenLabel && m[5..5 + |e.path|] == e.path
              && m[5 + |e.path|..] == NotExistText
  {
    match e
    case TransportError(reason) => reason
    case StatusError(status, body) => StatusLabel + Decimal.IntText(status) + BodyLabel + body
    case DecodeError(reason) => reason
    case FileError(path) => OpenLabel + path + NotExistText
  }

  /**
   * A service error's text gives back its status and its body: the status's
   * digits stop at the first ',', and the body is all that follows the labels.
   */
  lemma StatusMessageIdentifiesReply(status1: int, body1: string, status2: int, body2: string)
    requires Message(StatusError(status1, body1)) == Message(StatusError(status2, body2))
    ensures status1 == status2 && body1 == body2
  {
    var m := Message(StatusError(status1, body1));
    var t1, t2 := Decimal.IntText(status1), Decimal.IntText(status2);
    Decimal.IntTextDigits(status1);
    Decimal.IntTextDigits(status2);
    assert m == StatusLabel + t1 + BodyLabel + body1;
    assert m == StatusLabel + t2 + BodyLabel + body2;
    assert m[8 + |t1|] == ',' && m[8 + |t2|] == ',';
    assert forall i :: 8 <= i < 8 + |t1| ==> m[i] == t1[i - 8] != ',';
    assert forall i :: 8 <= i < 8 + |t2| ==> m[i] == t2[i - 8] != ',';
    assert |t1| == |t2|;
    assert t1 == m[8..8 + |t1|] == t2;
    Decimal.IntTextInjective(status1, status2);
    assert body1 == m[|m| - |body1|..] == body2;
  }
}
