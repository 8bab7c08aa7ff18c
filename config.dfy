/**
 * The run configuration (Config) and its builder: the adb command, the
 * Wi-Fi authentication type, password and SSID, and a tag made unique by the
 * wall-clock time at which the configuration is built.
 *
 * The wall clock is an input: `build` takes the count of milliseconds since
 * the epoch.
 */
module Configs {

  /** ConfigData: what a built Config holds; the getters are its fields. */
  datatype Config = Config(adbCmd: string, authType: string, password: string, ssid: string, uniqTag: string)

  /** A default Config: every field empty. */
  const EmptyConfig := Config("", "", "", "", "")

  /** The character of a decimal digit. */
  function Digit(d: nat): (c: char)
    requires d < 10
    ensures '0' <= c <= '9' && c as int - '0' as int == d
  {
    ('0' as int + d) as char
  }

  /** std::to_string of a non-negative value: its decimal digits, most significant first. */
  function Decimal(n: nat): (r: string)
    ensures |r| >= 1 && forall i :: 0 <= i < |r| ==> '0' <= r[i] <= '9'
    ensures n < 10 <==> |r| == 1
  {
    if n < 10 then [Digit(n)] else Decimal(n / 10) + [Digit(n % 10)]
  }

  /** The value a string of decimal digits denotes. */
  function DigitsValue(s: string): nat
    requires forall i :: 0 <= i < |s| ==> '0' <= s[i] <= '9'
  {
    if s == [] then 0 else DigitsValue(s[..|s| - 1]) * 10 + (s[|s| - 1] as int - '0' as int)
  }

  /** Reading the decimal digits back gives the value. */
  lemma {:induction false} DecimalValue(n: nat)
    ensures DigitsValue(Decimal(n)) == n
  {
    if n >= 10 {
      DecimalValue(n / 10);
      var s := Decimal(n);
      assert s[..|s| - 1] == Decimal(n / 10);
    }
  }

  /** The decimal of a byte value has one to three digits, and no leading zero. */
  lemma ByteDecimal(n: nat)
    requires n < 256
    ensures 1 <= |Decimal(n)| <= 3
    ensures |Decimal(n)| > 1 ==> Decimal(n)[0] != '0'
  {
    if n >= 10 {
      assert Decimal(n) == Decimal(n / 10) + [Digit(n % 10)];
      if n / 10 >= 10 {
        assert Decimal(n / 10) == [Digit(n / 100)] + [Digit(n / 10 % 10)];
      }
    }
  }

  /**
   * The unique tag of a time count: the decimal of each byte of the count,
   * least significant byte first, until the remaining bits are zero.
   */
  function UniqTag(time: nat): (r: string)
    decreases time
  {
    if time == 0 then "" else Decimal(time % 256) + UniqTag(time / 256)
  }

  /** The number of bytes the tag spells out. */
  function ByteCount(time: nat): nat
    decreases time
  {
    if time == 0 then 0 else 1 + ByteCount(time / 256)
  }

  /**
   * The tag is empty exactly for a time of 0; otherwise it is made only of
   * digits, and each byte contributes one to three of them.
   */
  lemma {:induction false} UniqTagShape(time: nat)
    ensures UniqTag(time) == "" <==> time == 0
    ensures ByteCount(time) <= |UniqTag(time)| <= 3 * ByteCount(time)
    ensures forall i :: 0 <= i < |UniqTag(time)| ==> '0' <= UniqTag(time)[i] <= '9'
    decreases time
  {
    if time != 0 {
      ByteDecimal(time % 256);
      UniqTagShape(time / 256);
    }
  }

  /**
   * The tag does not identify the time count: 5889 (bytes 1, 23, low
   * first) and 780 (bytes 12, 3) both spell "123", because the decimals
   * are joined without a separator.
   */
  lemma TagCollides()
    ensures UniqTag(5889) == UniqTag(780) == "123"
  {
    assert Digit(1) == '1' && Digit(2) == '2' && Digit(3) == '3';
    assert Decimal(23) == Decimal(2) + [Digit(3)] == "23";
    assert Decimal(12) == Decimal(1) + [Digit(2)] == "12";
    assert UniqTag(23) == Decimal(23) + UniqTag(0) == "23";
    assert UniqTag(3) == Decimal(3) + UniqTag(0) == "3";
    assert 5889 % 256 == 1 && 5889 / 256 == 23;
    assert 780 % 256 == 12 && 780 / 256 == 3;
  }

  /** to_string: each field after its label, in the order adb command, SSID, key, auth type, tag. */
  function ToString(c: Config): (r: string)
    ensures |r| == 32 + |c.adbCmd| + |c.ssid| + |c.password| + |c.authType| + |c.uniqTag|
  {
    "Adb " + c.adbCmd + " ssid " + c.ssid + " key " + c.password + " auth type " + c.authType + " uniq " + c.uniqTag
  }

  /** Every field is found verbatim right after its label, and the tag ends the text. */
  lemma ToStringFields(c: Config)
    ensures var r := ToString(c);
      var a := 4 + |c.adbCmd|;
      var s := a + 6 + |c.ssid|;
      var k := s + 5 + |c.password|;
      var t := k + 11 + |c.authType|;
      r[..4] == "Adb " && r[4..a] == c.adbCmd &&
      r[a..a + 6] == " ssid " && r[a + 6..s] == c.ssid &&
      r[s..s + 5] == " key " && r[s + 5..k] == c.password &&
      r[k..k + 11] == " auth type " && r[k + 11..t] == c.authType &&
      r[t..t + 6] == " uniq " && r[t + 6..] == c.uniqTag
  {
    // The text built up one piece at a time; each step splits back into the
    // text before it and the piece added.
    var p1 := "Adb " + c.adbCmd;
    var p2 := p1 + " ssid ";
    var p3 := p2 + c.ssid;
    var p4 := p3 + " key ";
    var p5 := p4 + c.password;
    var p6 := p5 + " auth type ";
    var p7 := p6 + c.authType;
    var p8 := p7 + " uniq ";
    var r := p8 + c.uniqTag;
    assert r == ToString(c);
    assert r[..|p8|] == p8 && r[|p8|..] == c.uniqTag;
    assert p8[..|p7|] == p7 && p8[|p7|..] == " uniq ";
    assert p7[..|p6|] == p6 && p7[|p6|..] == c.authType;
    assert p6[..|p5|] == p5 && p6[|p5|..] == " auth type ";
    assert p5[..|p4|] == p4 && p5[|p4|..] == c.password;
    assert p4[..|p3|] == p3 && p4[|p3|..] == " key ";
    assert p3[..|p2|] == p2 && p3[|p2|..] == c.ssid;
    assert p2[..|p1|] == p1 && p2[|p1|..] == " ssid ";
    assert p1[..4] == "Adb " && p1[4..] == c.adbCmd;
  }

  /** Config::Builder: the same fields, set one at a time; it has no setter for the tag. */
  class Builder {
    var adbCmd: string
    var authType: string
    var password: string
    var ssid: string
    var uniqTag: string

    /** A new builder: every field empty. */
    constructor ()
      ensures adbCmd == "" && authType == "" && password == "" && ssid == "" && uniqTag == ""
    {
      adbCmd, authType, password, ssid, uniqTag := "", "", "", "", "";
    }

    method SetAdbCmd(cmd: string) returns (b: Builder)
      modifies this
      ensures b == this && adbCmd == cmd
      ensures authType == old(authType) && password == old(password) && ssid == old(ssid) && uniqTag == old(uniqTag)
    {
      adbCmd := cmd;
      b := this;
    }

    method SetAuthType(atype: string) returns (b: Builder)
      modifies this
      ensures b == this && authType == atype
      ensures adbCmd == old(adbCmd) && password == old(password) && ssid == old(ssid) && uniqTag == old(uniqTag)
    {
      authType := atype;
      b := this;
    }

    method SetPassword(pwd: string) returns (b: Builder)
      modifies this
      ensures b == this && password == pwd
      ensures adbCmd == old(adbCmd) && authType == old(authType) && ssid == old(ssid) && uniqTag == old(uniqTag)
    {
      password := pwd;
      b := this;
    }

    method SetSsid(s: string) returns (b: Builder)
      modifies this
      ensures b == this && ssid == s
      ensures adbCmd == old(adbCmd) && authType == old(authType) && password == old(password) && uniqTag == old(uniqTag)
    {
      ssid := s;
      b := this;
    }

    /**
     * build: copy every field, then append to the tag the decimal of each
     * byte of the time count, least significant first, shifting it right by
     * eight bits until it is zero.
     */
    method Build(time: nat) returns (c: Config)
      ensures c == Config(adbCmd, authType, password, ssid, uniqTag + UniqTag(time))
    {
      c := Config(adbCmd, authType, password, ssid, uniqTag);
      var t := time;
      while t != 0
        invariant c.uniqTag + UniqTag(t) == uniqTag + UniqTag(time)
        invariant c.(uniqTag := uniqTag) == Config(adbCmd, authType, password, ssid, uniqTag)
      {
        var chunk := Decimal(t % 256);
        assert c.uniqTag + UniqTag(t) == (c.uniqTag + chunk) + UniqTag(t / 256);
        c := c.(uniqTag := c.uniqTag + chunk);
        t := t / 256;
      }
      assert c.uniqTag + "" == c.uniqTag;
    }
  }
}
