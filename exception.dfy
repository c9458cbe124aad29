/** The exception value of exception/exception.go: a mutable pair of a code and
    a message, rendered as "[code]msg". */
module Exceptions {
  import opened Base
  import Decimal

  /** Position of the first occurrence of c in s, if any. */
  function IndexOf(s: string, c: char): (r: Option<nat>)
    ensures r.Some? ==> r.value < |s| && s[r.value] == c && c !in s[..r.value]
    ensures r.None? ==> c !in s
  {
    if s == [] then None
    else if s[0] == c then Some(0)
    else match IndexOf(s[1..], c)
      case None => None
      case Some(k) => assert s[..k + 1] == [s[0]] + s[1..][..k]; Some(k + 1)
  }

  /** Reads "[code]msg" back into its code and message: the inverse of
      `Exception.Error`. */
  function Unrender(s: string): Option<(int32, string)> {
    if s == [] || s[0] != '[' then None
    else
      var body := s[1..];
      match IndexOf(body, ']')
      case None => None
      case Some(k) =>
        match Decimal.Parse(body[..k])
        case None => None
        case Some(n) =>
          if -0x8000_0000 <= n < 0x8000_0000 then Some((n as int32, body[k + 1..])) else None
  }

  lemma IndexOfAfterPrefix(pre: string, c: char, rest: string)
    requires c !in pre
    ensures IndexOf(pre + [c] + rest, c) == Some(|pre|)
  {
    var s := pre + [c] + rest;
    assert s[|pre|] == c;
    assert forall i :: 0 <= i < |pre| ==> s[i] == pre[i];
    assert forall j :: |pre| < j <= |s| ==> s[..j][|pre|] == c;
  }

  /** The text of "[code]msg" determines both the code and the message. */
  lemma {:induction false} UnrenderRender(code: int32, msg: string)
    ensures Unrender("[" + Decimal.Format(code as int) + "]" + msg) == Some((code, msg))
  {
    var d := Decimal.Format(code as int);
    var s := "[" + d + "]" + msg;
    assert s[1..] == d + "]" + msg;
    assert forall i :: 0 < i < |d| ==> Decimal.IsDigit(d[i]) by {
      if code < 0 {
        assert forall i :: 0 < i < |d| ==> d[i] == d[1..][i - 1];
      }
    }
    assert ']' !in d;
    IndexOfAfterPrefix(d, ']', msg);
    assert s[1..][..|d|] == d;
    assert s[1..][|d| + 1..] == msg;
    Decimal.ParseFormat(code as int);
  }

  class Exception {
    var code: int32
    var msg: string

    /** `New(code, msg)`. */
    constructor New(code: int32, msg: string)
      ensures this.code == code && this.msg == msg
    {
      this.code := code;
      this.msg := msg;
    }

    /** `NewByErr(code, e)`: the message is the text of e, which the source
        dereferences, so e must not be nil. */
    constructor NewByErr(code: int32, e: Option<string>)
      requires e.Some?
      ensures this.code == code && this.msg == e.value
    {
      this.code := code;
      this.msg := e.value;
    }

    /** "[code]msg"; reading it back yields the code and the message. */
    function Error(): (s: string)
      reads this
      ensures |s| >= 3 && s[0] == '['
      ensures Unrender(s) == Some((code, msg))
    {
      UnrenderRender(code, msg);
      "[" + Decimal.Format(code as int) + "]" + msg
    }

    /** The code the rendered text carries. */
    function Code(): (c: int32)
      reads this
      ensures Unrender(Error()) == Some((c, msg))
    {
      code
    }

    method WithCode(c: int32) returns (r: Exception)
      modifies this
      ensures r == this
      ensures code == c && msg == old(msg)
    {
      code := c;
      r := this;
    }

    method WithExtendMsg(ext: string) returns (r: Exception)
      modifies this
      ensures r == this
      ensures msg == old(msg) + "," + ext && code == old(code)
    {
      msg := msg + "," + ext;
      r := this;
    }

    method ToError() returns (r: Exception)
      ensures r == this
    {
      r := this;
    }

    /** A nil error leaves the message alone; otherwise its text replaces it. */
    method WithError(err: Option<string>) returns (r: Exception)
      modifies this
      ensures r == this && code == old(code)
      ensures msg == (if err.Some? then err.value else old(msg))
    {
      if err.Some? {
        msg := err.value;
      }
      r := this;
    }

    method WithMsg(m: string) returns (r: Exception)
      modifies this
      ensures r == this
      ensures msg == m && code == old(code)
    {
      msg := m;
      r := this;
    }
  }
}
