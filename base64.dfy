/** Base 64 as section 4 of RFC 4648 defines it (what `btoa` produces), the URL-safe
    post-processing applied to it by the PKCE challenge, and the acceptance test of `atob`
    (the forgiving-base64 decode of the WHATWG HTML standard). */
module Base64 {
  import opened Common

  const StdAlphabet: string := "ABCDEFGHIJKLMNOPQRSTUVWXYZabcdefghijklmnopqrstuvwxyz0123456789+/"

  predicate IsStdChar(c: char)
  {
    ('A' <= c <= 'Z') || ('a' <= c <= 'z') || ('0' <= c <= '9') || c == '+' || c == '/'
  }

  function Enc(v: int): (c: char)
    requires 0 <= v < 64
    ensures IsStdChar(c)
  {
    if v < 26 then ('A' as int + v) as char
    else if v < 52 then ('a' as int + v - 26) as char
    else if v < 62 then ('0' as int + v - 52) as char
    else if v == 62 then '+'
    else '/'
  }

  /** Standard base 64 with `=` padding: every 24-bit group becomes four characters. */
  function Encode(b: seq<byte>): string
    decreases |b|
  {
    if |b| == 0 then []
    else if |b| == 1 then [Enc(b[0] / 4), Enc((b[0] % 4) * 16), '=', '=']
    else if |b| == 2 then [Enc(b[0] / 4), Enc((b[0] % 4) * 16 + b[1] / 16), Enc((b[1] % 16) * 4), '=']
    else Group(b) + Encode(b[3..])
  }

  /** How many `=` a final partial group gets. */
  function PadLength(n: nat): nat
  {
    (3 - n % 3) % 3
  }

  /** The first four characters of a group of at least three bytes. */
  function Group(b: seq<byte>): (g: string)
    requires |b| >= 3
    ensures |g| == 4 && forall i :: 0 <= i < 4 ==> IsStdChar(g[i])
  {
    [Enc(b[0] / 4), Enc((b[0] % 4) * 16 + b[1] / 16), Enc((b[1] % 16) * 4 + b[2] / 64), Enc(b[2] % 64)]
  }

  /** Four alphabet characters in front of an encoding of `n` bytes keep its shape, now for `n + 3`. */
  lemma PrependGroup(g: string, rest: string, n: nat)
    requires |g| == 4 && forall i :: 0 <= i < 4 ==> IsStdChar(g[i])
    requires |rest| == 4 * ((n + 2) / 3) && |rest| % 4 == 0 && PadLength(n) <= |rest|
    requires forall i :: 0 <= i < |rest| - PadLength(n) ==> IsStdChar(rest[i])
    requires forall i :: |rest| - PadLength(n) <= i < |rest| ==> rest[i] == '='
    ensures |g + rest| == 4 * ((n + 3 + 2) / 3) && |g + rest| % 4 == 0 && PadLength(n + 3) <= |g + rest|
    ensures forall i :: 0 <= i < |g + rest| - PadLength(n + 3) ==> IsStdChar((g + rest)[i])
    ensures forall i :: |g + rest| - PadLength(n + 3) <= i < |g + rest| ==> (g + rest)[i] == '='
  {
    assert PadLength(n + 3) == PadLength(n);
    assert (n + 3 + 2) / 3 == (n + 2) / 3 + 1;
  }

  /** Length of the encoding, where the padding is, and that everything else is in the alphabet. */
  lemma {:induction false} EncodeShape(b: seq<byte>)
    ensures |Encode(b)| == 4 * ((|b| + 2) / 3) && |Encode(b)| % 4 == 0
    ensures PadLength(|b|) <= |Encode(b)|
    ensures forall i :: 0 <= i < |Encode(b)| - PadLength(|b|) ==> IsStdChar(Encode(b)[i])
    ensures forall i :: |Encode(b)| - PadLength(|b|) <= i < |Encode(b)| ==> Encode(b)[i] == '='
    decreases |b|
  {
    if |b| >= 3 {
      EncodeShape(b[3..]);
      PrependGroup(Group(b), Encode(b[3..]), |b[3..]|);
    }
  }

  // ---------------------------------------------------------------------------
  // The base64url post-processing `.replace(/\+/g, "-").replace(/\//g, "_").replace(/=+$/g, "")`.

  /** `s.replace(/from/g, to)` for a single character. */
  function ReplaceAll(s: string, from: char, to: char): (r: string)
    ensures |r| == |s|
    ensures forall i :: 0 <= i < |s| ==> r[i] == if s[i] == from then to else s[i]
  {
    seq(|s|, i requires 0 <= i < |s| => if s[i] == from then to else s[i])
  }

  /** `s.replace(/c+$/g, "")`: drops the run of `c` that ends the string. The result is the
      longest prefix that does not end in `c` and after which only `c` follows. */
  function TrimEnd(s: string, c: char): (r: string)
    ensures |r| <= |s| && r == s[..|r|]
    ensures |r| == 0 || r[|r| - 1] != c
    ensures forall i :: |r| <= i < |s| ==> s[i] == c
    decreases |s|
  {
    if |s| > 0 && s[|s| - 1] == c then TrimEnd(s[..|s| - 1], c) else s
  }

  function ToUrl(s: string): string
  {
    TrimEnd(ReplaceAll(ReplaceAll(s, '+', '-'), '/', '_'), '=')
  }

  /** The character that the URL-safe alphabet (section 5 of RFC 4648) uses in place of `c`. */
  function UrlChar(c: char): char
  {
    if c == '+' then '-' else if c == '/' then '_' else c
  }

  predicate IsUrlChar(c: char)
  {
    ('A' <= c <= 'Z') || ('a' <= c <= 'z') || ('0' <= c <= '9') || c == '-' || c == '_'
  }

  /** Trimming a known run of `k` trailing `c` that follows a character other than `c`. */
  lemma TrimEndRun(s: string, c: char, k: nat)
    requires k <= |s|
    requires forall i :: |s| - k <= i < |s| ==> s[i] == c
    requires k == |s| || s[|s| - k - 1] != c
    ensures TrimEnd(s, c) == s[..|s| - k]
  {
    var u := TrimEnd(s, c);
    assert k < |s| ==> s[|s| - k - 1] != c;
    assert |u| > 0 ==> u[|u| - 1] == s[|u| - 1];
  }

  lemma EncodedLength(n: nat)
    ensures 4 * ((n + 2) / 3) - PadLength(n) == (4 * n + 2) / 3
  {
    var q := n / 3;
    assert n == 3 * q + n % 3;
  }

  /** Standard base 64 text: a multiple of four characters of the alphabet, of which the last
      `p` (at most two) are `=`. */
  ghost predicate WellPadded(e: string, p: nat)
  {
    && p <= 2 && p <= |e| && |e| % 4 == 0
    && (forall i :: 0 <= i < |e| - p ==> IsStdChar(e[i]))
    && (forall i :: |e| - p <= i < |e| ==> e[i] == '=')
  }

  /** The shape `EncodeShape` gives, restated as `WellPadded`. */
  lemma ShapeIsWellPadded(e: string, n: nat)
    requires |e| % 4 == 0 && PadLength(n) <= |e|
    requires forall i :: 0 <= i < |e| - PadLength(n) ==> IsStdChar(e[i])
    requires forall i :: |e| - PadLength(n) <= i < |e| ==> e[i] == '='
    ensures WellPadded(e, PadLength(n))
  {
  }

  lemma EncodeWellPadded(b: seq<byte>)
    ensures WellPadded(Encode(b), PadLength(|b|))
    ensures |Encode(b)| - PadLength(|b|) == (4 * |b| + 2) / 3
  {
    EncodeShape(b);
    EncodedLength(|b|);
    ShapeIsWellPadded(Encode(b), |b|);
  }

  lemma ToUrlOfPadded(e: string, p: nat)
    requires WellPadded(e, p)
    ensures |ToUrl(e)| == |e| - p
    ensures forall i :: 0 <= i < |ToUrl(e)| ==> ToUrl(e)[i] == UrlChar(e[i]) && IsUrlChar(ToUrl(e)[i])
  {
    var swapped := ReplaceAll(ReplaceAll(e, '+', '-'), '/', '_');
    assert forall i :: 0 <= i < |e| ==> swapped[i] == UrlChar(e[i]);
    assert forall i :: 0 <= i < |e| - p ==> IsUrlChar(swapped[i]);
    TrimEndRun(swapped, '=', p);
  }

  /** The URL-safe encoding is the standard one with `+`, `/` swapped for `-`, `_` and the
      padding dropped: its length is ceil(4n/3), and no `+`, `/` or `=` is left. */
  lemma UrlEncodingShape(b: seq<byte>)
    ensures |ToUrl(Encode(b))| == |Encode(b)| - PadLength(|b|) == (4 * |b| + 2) / 3
    ensures forall i :: 0 <= i < |ToUrl(Encode(b))| ==>
              ToUrl(Encode(b))[i] == UrlChar(Encode(b)[i]) && IsUrlChar(ToUrl(Encode(b))[i])
    ensures '+' !in ToUrl(Encode(b)) && '/' !in ToUrl(Encode(b)) && '=' !in ToUrl(Encode(b))
  {
    EncodeWellPadded(b);
    var e := Encode(b);
    ToUrlOfPadded(e, PadLength(|b|));
    var u := ToUrl(e);
    forall x | x in u
      ensures x != '+' && x != '/' && x != '='
    {
      var i :| 0 <= i < |u| && u[i] == x;
      assert IsUrlChar(u[i]);
    }
  }

  /** A 32-byte SHA-256 digest gives a 43-character challenge (Appendix B of RFC 7636). */
  lemma DigestChallengeLength(digest: seq<byte>)
    requires |digest| == 32
    ensures |ToUrl(Encode(digest))| == 43
  {
    UrlEncodingShape(digest);
  }

  // ---------------------------------------------------------------------------
  // `atob` and the way back from the URL-safe alphabet.

  predicate IsAsciiWhitespace(c: char)
  {
    c == '\t' || c == '\n' || c as int == 0x0C || c == '\r' || c == ' '
  }

  function RemoveAsciiWhitespace(s: string): (r: string)
    ensures forall x :: x in r ==> x in s && !IsAsciiWhitespace(x)
    ensures forall x :: x in s && !IsAsciiWhitespace(x) ==> x in r
  {
    if s == [] then []
    else if IsAsciiWhitespace(s[0]) then RemoveAsciiWhitespace(s[1..])
    else [s[0]] + RemoveAsciiWhitespace(s[1..])
  }

  /** When the length is a multiple of four, one or two trailing `=` are dropped. */
  function StripPadding(d: string): (r: string)
    ensures |d| - 2 <= |r| <= |d| && r == d[..|r|]
    ensures forall i :: |r| <= i < |d| ==> d[i] == '='
  {
    if |d| % 4 == 0 && |d| >= 2 && d[|d| - 2] == '=' && d[|d| - 1] == '=' then d[..|d| - 2]
    else if |d| % 4 == 0 && |d| >= 1 && d[|d| - 1] == '=' then d[..|d| - 1]
    else d
  }

  /** The input `atob` decodes instead of throwing: after removing ASCII whitespace and the
      padding, no length of the form 4k+1 and nothing outside the standard alphabet. */
  predicate AtobAccepts(s: string)
  {
    var body := StripPadding(RemoveAsciiWhitespace(s));
    |body| % 4 != 1 && forall i :: 0 <= i < |body| ==> IsStdChar(body[i])
  }

  /** Stripping the padding of well-padded text leaves exactly the alphabet characters. */
  lemma StripWellPadded(e: string, p: nat)
    requires WellPadded(e, p)
    ensures StripPadding(e) == e[..|e| - p]
  {
    if p < 2 && |e| > p {
      assert IsStdChar(e[|e| - p - 1]);
    }
  }

  lemma AtobAcceptsPadded(e: string, p: nat)
    requires WellPadded(e, p)
    ensures AtobAccepts(e)
  {
    NoWhitespaceUnchanged(e);
    StripWellPadded(e, p);
    var body := e[..|e| - p];
    assert forall i :: 0 <= i < |body| ==> IsStdChar(body[i]);
    assert |body| % 4 != 1;
  }

  /** Standard base 64 is always accepted. */
  lemma AtobAcceptsStandard(b: seq<byte>)
    ensures AtobAccepts(Encode(b))
  {
    EncodeWellPadded(b);
    AtobAcceptsPadded(Encode(b), PadLength(|b|));
  }

  lemma {:induction false} NoWhitespaceUnchanged(s: string)
    requires forall i :: 0 <= i < |s| ==> IsStdChar(s[i]) || s[i] == '='
    ensures RemoveAsciiWhitespace(s) == s
  {
    if s != [] {
      assert IsStdChar(s[0]) || s[0] == '=';
      NoWhitespaceUnchanged(s[1..]);
    }
  }

  /** Any text containing a URL-safe `-` or `_` makes `atob` throw. */
  lemma AtobRejectsUrlAlphabet(s: string)
    requires '-' in s || '_' in s
    ensures !AtobAccepts(s)
  {
    var d := RemoveAsciiWhitespace(s);
    var x := if '-' in s then '-' else '_';
    assert x in d;
    var i :| 0 <= i < |d| && d[i] == x;
    var body := StripPadding(d);
    assert i < |body| && body[i] == x;
  }

  /** Back from the URL-safe alphabet: `-`, `_` to `+`, `/`, and the padding restored. */
  function ToStandard(u: string): (s: string)
    ensures |s| % 4 == 0
  {
    ReplaceAll(ReplaceAll(u, '-', '+'), '_', '/') + seq((4 - |u| % 4) % 4, _ => '=')
  }

  lemma ToStandardOfPadded(e: string, p: nat)
    requires WellPadded(e, p)
    ensures ToStandard(ToUrl(e)) == e
  {
    ToUrlOfPadded(e, p);
    var u := ToUrl(e);
    var s := ToStandard(u);
    assert (4 - |u| % 4) % 4 == p;
    forall i | 0 <= i < |e|
      ensures s[i] == e[i]
    {
      if i < |u| {
        assert u[i] == UrlChar(e[i]);
        assert IsStdChar(e[i]);
      }
    }
  }

  /** ToStandard undoes the URL-safe post-processing exactly. */
  lemma ToStandardInvertsToUrl(b: seq<byte>)
    ensures ToStandard(ToUrl(Encode(b))) == Encode(b)
  {
    EncodeWellPadded(b);
    ToStandardOfPadded(Encode(b), PadLength(|b|));
  }

  /** The counterexample behind decoding a JWT segment with `atob`: one byte 0xFF encodes as
      `_w` in base64url, which `atob` refuses, while its standard form `/w==` is accepted. */
  lemma AtobRejectsEncodedSegment()
    ensures ToUrl(Encode([255])) == "_w"
    ensures !AtobAccepts(ToUrl(Encode([255])))
    ensures AtobAccepts(ToStandard(ToUrl(Encode([255]))))
  {
    assert Encode([255]) == "/w==";
    UrlEncodingShape([255]);
    assert ToUrl(Encode([255])) == "_w";
    AtobRejectsUrlAlphabet("_w");
    ToStandardInvertsToUrl([255]);
    AtobAcceptsStandard([255]);
  }
}
