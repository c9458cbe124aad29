/** Error codes of excode/code.go: an int32 that builds exceptions. */
module ExCodes {
  import opened Base
  import Exceptions
  import Decimal

  newtype ExCode = x: int | -0x8000_0000 <= x < 0x8000_0000 {

    /** The code as a plain int32, value unchanged. */
    function ToNum(): (n: int32)
      ensures n as int == this as int
    {
      this as int as int32
    }

    /** A fresh exception carrying this code and the given message. */
    method ToEx(msg: string) returns (e: Exceptions.Exception)
      ensures fresh(e)
      ensures e.code == ToNum() && e.msg == msg
      ensures e.Error() == "[" + Decimal.Format(this as int) + "]" + msg
    {
      e := new Exceptions.Exception.New(ToNum(), msg);
    }
  }

  /** Sample codes from excode/code_user.go. */
  const UserErr: ExCode := 2000
  const UserNoFound: ExCode := 2001

  /** Two exceptions built from one code are distinct objects: changing the
      code of one leaves the other as it was built. */
  method ToExIndependent(c: ExCode, m1: string, m2: string, other: int32)
    returns (a: Exceptions.Exception, b: Exceptions.Exception)
    ensures a != b
    ensures a.code == other && a.msg == m1
    ensures b.code == c.ToNum() && b.msg == m2
  {
    a := c.ToEx(m1);
    b := c.ToEx(m2);
    var _ := a.WithCode(other);
  }

  /** UserNoFound.ToEx("x").Error() is "[2001]x". */
  method UserNoFoundText() returns (s: string)
    ensures s == "[2001]x"
  {
    var e := UserNoFound.ToEx("x");
    assert Decimal.Format(2001) == "2001" by {
      assert Decimal.Digits(2) == "2";
      assert Decimal.Digits(20) == "20";
      assert Decimal.Digits(200) == "200";
    }
    s := e.Error();
  }
}
