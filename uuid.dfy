/**
 * Python's `uuid.UUID(text)` and `str(uuid)`: the parsing every clinical
 * history id of the backend goes through. A UUID is represented by its
 * canonical text, which is what the store keys records by.
 */
module Uuid {
  import opened Wrappers
  import opened Text

  predicate IsHexDigit(c: char) {
    '0' <= c <= '9' || 'a' <= c <= 'f' || 'A' <= c <= 'F'
  }

  predicate IsLowerHex(c: char) {
    '0' <= c <= '9' || 'a' <= c <= 'f'
  }

  /** The character set of `strip('{}')`. */
  predicate IsBrace(c: char) {
    c == '{' || c == '}'
  }

  /** What `UUID(text)` reads the digits from: every "urn:" and then every
      "uuid:" removed, braces stripped from both ends, every dash removed. */
  function Hex(text: string): string {
    RemoveChar(Trim(RemoveString(RemoveString(text, "urn:"), "uuid:"), IsBrace), '-')
  }

  /** `str(u)`: the 32 digits grouped 8-4-4-4-12 by dashes. */
  function Canonical(h: string): (u: string)
    requires |h| == 32
    ensures |u| == 36
  {
    h[..8] + "-" + h[8..12] + "-" + h[12..16] + "-" + h[16..20] + "-" + h[20..]
  }

  /** The text `str` gives: dashes at 8, 13, 18 and 23, lower-case
      hexadecimal digits everywhere else. */
  predicate IsCanonical(u: string) {
    |u| == 36 &&
    forall i :: 0 <= i < 36 ==>
      if i == 8 || i == 13 || i == 18 || i == 23 then u[i] == '-' else IsLowerHex(u[i])
  }

  predicate AllHex(h: string) {
    forall i :: 0 <= i < |h| ==> IsHexDigit(h[i])
  }

  /** `str(UUID(text))`, or None where `UUID(text)` raises ValueError: what is
      left after the clean-up must be exactly 32 hexadecimal digits. */
  function Parse(text: string): (r: Option<string>)
    ensures r.Some? <==> |Hex(text)| == 32 && AllHex(Hex(text))
    ensures r.Some? ==> IsCanonical(r.value)
  {
    var h := Hex(text);
    if |h| == 32 && AllHex(h) then
      CanonicalIsCanonical(ToLower(h));
      Some(Canonical(ToLower(h)))
    else None
  }

  /** Grouping 32 lower-case digits gives canonical text. */
  lemma CanonicalIsCanonical(h: string)
    requires |h| == 32 && forall i :: 0 <= i < 32 ==> IsLowerHex(h[i])
    ensures IsCanonical(Canonical(h))
  {
    var u := Canonical(h);
    forall i | 0 <= i < 36
      ensures if i == 8 || i == 13 || i == 18 || i == 23 then u[i] == '-' else IsLowerHex(u[i])
    {
      if i < 8 {
        assert u[i] == h[i];
      } else if 8 < i < 13 {
        assert u[i] == h[i - 1];
      } else if 13 < i < 18 {
        assert u[i] == h[i - 2];
      } else if 18 < i < 23 {
        assert u[i] == h[i - 3];
      } else if 23 < i {
        assert u[i] == h[i - 4];
      }
    }
  }

  /** Removing the dashes of the grouped form gives the digits back. */
  lemma RemoveDashes(h: string)
    requires |h| == 32 && '-' !in h
    ensures RemoveChar(Canonical(h), '-') == h
  {
    var a, b, c, d, e := h[..8], h[8..12], h[12..16], h[16..20], h[20..];
    RemoveCharSpec(a, '-');
    RemoveCharSpec(b, '-');
    RemoveCharSpec(c, '-');
    RemoveCharSpec(d, '-');
    RemoveCharSpec(e, '-');
    RemoveCharConcat(a + "-" + b + "-" + c + "-" + d + "-", e, '-');
    RemoveCharConcat(a + "-" + b + "-" + c + "-" + d, "-", '-');
    RemoveCharConcat(a + "-" + b + "-" + c + "-", d, '-');
    RemoveCharConcat(a + "-" + b + "-" + c, "-", '-');
    RemoveCharConcat(a + "-" + b + "-", c, '-');
    RemoveCharConcat(a + "-" + b, "-", '-');
    RemoveCharConcat(a + "-", b, '-');
    RemoveCharConcat(a, "-", '-');
    assert a + b + c + d + e == h;
  }

  /** `str(UUID(s)) == s` for canonical text. */
  lemma CanonicalRoundTrip(u: string)
    requires IsCanonical(u)
    ensures Parse(u) == Some(u)
  {
    var h := u[..8] + u[9..13] + u[14..18] + u[19..23] + u[24..];
    var c := Canonical(h);
    forall i | 0 <= i < 36
      ensures c[i] == u[i]
    {
      if i < 8 {
        assert c[i] == h[i];
      } else if 8 < i < 13 {
        assert c[i] == h[i - 1];
      } else if 13 < i < 18 {
        assert c[i] == h[i - 2];
      } else if 18 < i < 23 {
        assert c[i] == h[i - 3];
      } else if 23 < i {
        assert c[i] == h[i - 4];
      }
    }
    assert c == u;
    assert forall i :: 0 <= i < 32 ==> IsLowerHex(h[i]);
    assert 'u' !in u;
    RemoveStringAbsent(u, "urn:");
    RemoveStringAbsent(u, "uuid:");
    TrimNone(u, IsBrace);
    RemoveDashes(h);
    assert ToLower(h) == h;
  }

  /** Stripping one brace from each end of a text with no brace at its ends. */
  lemma StripBraces(u: string)
    requires u != [] && !IsBrace(u[0]) && !IsBrace(u[|u| - 1])
    ensures Trim("{" + u + "}", IsBrace) == u
  {
    var s := "{" + u + "}";
    assert s[1..] == u + "}";
    assert TrimLeft(s, IsBrace) == u + "}";
    assert (u + "}")[..|u|] == u;
    assert TrimRight(u + "}", IsBrace) == u;
  }

  /** The braced form `{…}` names the same UUID. */
  lemma BracedRoundTrip(u: string)
    requires IsCanonical(u)
    ensures Parse("{" + u + "}") == Some(u)
  {
    var s := "{" + u + "}";
    assert 'u' !in s by {
      assert forall i :: 0 <= i < |s| ==> s[i] == '{' || s[i] == '}' || s[i] == u[i - 1];
    }
    RemoveStringAbsent(s, "urn:");
    RemoveStringAbsent(s, "uuid:");
    StripBraces(u);
    assert Hex(s) == RemoveChar(u, '-');
    CanonicalRoundTrip(u);
    assert 'u' !in u;
    RemoveStringAbsent(u, "urn:");
    RemoveStringAbsent(u, "uuid:");
    TrimNone(u, IsBrace);
    assert Hex(s) == Hex(u);
  }

  /** The bare 32 digits, in either case, name the UUID they group to. */
  lemma DigitsParse(h: string)
    requires |h| == 32 && AllHex(h)
    ensures Parse(h) == Some(Canonical(ToLower(h)))
  {
    assert 'u' !in h && '-' !in h;
    RemoveStringAbsent(h, "urn:");
    RemoveStringAbsent(h, "uuid:");
    TrimNone(h, IsBrace);
    RemoveCharSpec(h, '-');
  }
}
