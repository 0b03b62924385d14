/**
 * Reading the expiration of a JSON Web Token, as the authentication service
 * does it: split the compact serialisation (section 7.1 of RFC 7515) on `.`,
 * turn the base64url payload segment into padded base64 (the alphabet of
 * section 5 of RFC 4648 mapped back to that of section 4, then `=` padding),
 * hand it to `atob` and `JSON.parse`, and read the `exp` NumericDate claim
 * (seconds, section 4.1.4 of RFC 7519), which is turned into milliseconds.
 *
 * `atob` followed by `JSON.parse` is not modelled; it is a `PayloadParser`
 * supplied by the caller, which either throws or returns a payload.
 */
module Jwt {
  import opened Wrappers

  // ---------------------------------------------------------------------------
  // String.prototype.split with a one-character separator
  // ---------------------------------------------------------------------------

  /** Number of occurrences of `c` in `s`. */
  function Count(s: string, c: char): nat
  {
    if s == [] then 0 else (if s[0] == c then 1 else 0) + Count(s[1..], c)
  }

  /**
   * `s.split(sep)`: the maximal separator-free pieces between occurrences of
   * `sep`, so there is always one more piece than separators (`"".split('.')`
   * is `[""]`).
   */
  function Split(s: string, sep: char): (parts: seq<string>)
    ensures |parts| == Count(s, sep) + 1
    ensures forall k :: 0 <= k < |parts| ==> sep !in parts[k]
    decreases |s|
  {
    if s == [] then [""]
    else
      var rest := Split(s[1..], sep);
      if s[0] == sep then [""] + rest
      else [[s[0]] + rest[0]] + rest[1..]
  }

  /** `parts.join(sep)`, the inverse of `Split`. */
  function Join(parts: seq<string>, sep: char): string
    requires parts != []
    decreases |parts|
  {
    if |parts| == 1 then parts[0] else parts[0] + [sep] + Join(parts[1..], sep)
  }

  /** Joining the pieces of a split gives back the original string. */
  lemma {:induction false} JoinSplit(s: string, sep: char)
    ensures Join(Split(s, sep), sep) == s
    decreases |s|
  {
    if s != [] {
      JoinSplit(s[1..], sep);
      var rest := Split(s[1..], sep);
      if s[0] == sep {
        assert Split(s, sep) == [""] + rest;
        assert s == [sep] + s[1..];
      } else {
        var parts := Split(s, sep);
        assert parts == [[s[0]] + rest[0]] + rest[1..];
        if |rest| == 1 {
          assert s == [s[0]] + s[1..];
        } else {
          assert parts[1..] == rest[1..];
          assert Join(rest, sep) == rest[0] + [sep] + Join(rest[1..], sep);
          assert s == [s[0]] + s[1..];
        }
      }
    }
  }

  /** A piece free of the separator, followed by the separator, splits off as one part. */
  lemma {:induction false} SplitAfterPiece(a: string, sep: char, b: string)
    requires sep !in a
    ensures Split(a + [sep] + b, sep) == [a] + Split(b, sep)
    decreases |a|
  {
    if a == [] {
      assert a + [sep] + b == [sep] + b;
      assert ([sep] + b)[1..] == b;
    } else {
      SplitAfterPiece(a[1..], sep, b);
      assert (a + [sep] + b)[1..] == a[1..] + [sep] + b;
      assert [a[0]] + a[1..] == a;
    }
  }

  /** A string free of the separator splits into itself alone. */
  lemma {:induction false} SplitOfPiece(a: string, sep: char)
    requires sep !in a
    ensures Split(a, sep) == [a]
    decreases |a|
  {
    if a != [] {
      SplitOfPiece(a[1..], sep);
      assert [a[0]] + a[1..] == a;
    }
  }

  /** Splitting a join of separator-free pieces gives back the pieces. */
  lemma {:induction false} SplitJoin(parts: seq<string>, sep: char)
    requires parts != []
    requires forall k :: 0 <= k < |parts| ==> sep !in parts[k]
    ensures Split(Join(parts, sep), sep) == parts
    decreases |parts|
  {
    if |parts| == 1 {
      SplitOfPiece(parts[0], sep);
    } else {
      SplitJoin(parts[1..], sep);
      SplitAfterPiece(parts[0], sep, Join(parts[1..], sep));
      assert [parts[0]] + parts[1..] == parts;
    }
  }

  // ---------------------------------------------------------------------------
  // base64url to base64
  // ---------------------------------------------------------------------------

  /** `s.replace(/from/g, to)` for a single character. */
  function ReplaceAll(s: string, from: char, to: char): (r: string)
    ensures |r| == |s|
    ensures forall i :: 0 <= i < |s| ==> r[i] == (if s[i] == from then to else s[i])
    decreases |s|
  {
    if s == [] then []
    else [if s[0] == from then to else s[0]] + ReplaceAll(s[1..], from, to)
  }

  /** `s.padEnd(target, fill)` for a one-character fill. */
  function PadEnd(s: string, target: int, fill: char): (r: string)
    ensures |r| == if target <= |s| then |s| else target
    ensures r[..|s|] == s
    ensures forall i :: |s| <= i < |r| ==> r[i] == fill
    decreases target - |s|
  {
    if target <= |s| then s else PadEnd(s + [fill], target, fill)
  }

  /** The alphabet change of one character: `-` becomes `+`, `_` becomes `/`. */
  function UrlToStdChar(c: char): char
  {
    if c == '-' then '+' else if c == '_' then '/' else c
  }

  /**
   * The payload segment as `decodeJwt` hands it to `atob`: `-` and `_`
   * replaced, then padded with `=` up to a multiple of four.
   */
  function ToBase64(segment: string): (r: string)
    ensures |r| % 4 == 0
    ensures |segment| <= |r| < |segment| + 4
    ensures forall i :: 0 <= i < |segment| ==> r[i] == UrlToStdChar(segment[i])
    ensures forall i :: |segment| <= i < |r| ==> r[i] == '='
  {
    var base64 := ReplaceAll(ReplaceAll(segment, '-', '+'), '_', '/');
    PadEnd(base64, |base64| + (4 - |base64| % 4) % 4, '=')
  }

  /**
   * The reverse direction, stated independently: drop trailing `=` and map
   * `+` and `/` back to `-` and `_`.
   */
  function FromBase64(b: string): string
    decreases |b|
  {
    if b != [] && b[|b| - 1] == '=' then FromBase64(b[..|b| - 1])
    else seq(|b|, i requires 0 <= i < |b| =>
               if b[i] == '+' then '-' else if b[i] == '/' then '_' else b[i])
  }

  /** A segment that uses only the base64url alphabet (no `+`, `/` or `=`). */
  predicate IsUrlSegment(s: string)
  {
    forall i :: 0 <= i < |s| ==> s[i] != '+' && s[i] != '/' && s[i] != '='
  }

  /** Only `=` characters follow position `n` of `b`: stripping them gives `b[..n]`. */
  lemma {:induction false} StripPadding(b: string, n: nat)
    requires n <= |b|
    requires forall i :: n <= i < |b| ==> b[i] == '='
    requires n == 0 || b[n - 1] != '='
    ensures FromBase64(b) == FromBase64(b[..n])
    decreases |b|
  {
    if |b| > n {
      assert b[..|b| - 1][..n] == b[..n];
      StripPadding(b[..|b| - 1], n);
    }
  }

  /** The normalisation loses nothing: a base64url segment is recovered from its base64 form. */
  lemma RoundTrip(segment: string)
    requires IsUrlSegment(segment)
    ensures FromBase64(ToBase64(segment)) == segment
  {
    var b := ToBase64(segment);
    var n := |segment|;
    StripPadding(b, n);
    var front := b[..n];
    if n > 0 {
      assert front[n - 1] == UrlToStdChar(segment[n - 1]);
    }
    assert FromBase64(front) == segment;
  }

  // ---------------------------------------------------------------------------
  // decodeJwt and getTokenExpiration
  // ---------------------------------------------------------------------------

  /** A parsed payload object; `exp` is present when `typeof payload.exp === 'number'`. */
  datatype Payload = Payload(exp: Option<int>)

  /** The outcome of decoding: an exception, or a value (None for a falsy one such as `null`). */
  datatype Decoded = Threw | Returned(payload: Option<Payload>)

  /** `JSON.parse(atob(padded))`, which the model does not look inside. */
  type PayloadParser = string -> Decoded

  /**
   * `decodeJwt`: null unless the token has exactly three `.`-separated parts,
   * i.e. exactly two dots; otherwise the parse of the middle part alone.
   */
  function DecodeJwt(token: string, parse: PayloadParser): (r: Decoded)
    ensures Count(token, '.') != 2 ==> r == Returned(None)
    ensures Count(token, '.') == 2 ==> r == parse(ToBase64(Split(token, '.')[1]))
  {
    var parts := Split(token, '.');
    if |parts| != 3 then Returned(None) else parse(ToBase64(parts[1]))
  }

  /** Header and signature play no part: a token `h.p.s` decodes as its payload `p` does. */
  lemma DecodeReadsOnlyPayload(header: string, payload: string, signature: string, parse: PayloadParser)
    requires '.' !in header && '.' !in payload && '.' !in signature
    ensures DecodeJwt(header + "." + payload + "." + signature, parse) == parse(ToBase64(payload))
  {
    var parts := [header, payload, signature];
    assert Join(parts, '.') == header + "." + payload + "." + signature by {
      assert Join(parts[1..], '.') == payload + "." + signature by {
        assert parts[1..][1..] == [signature];
      }
    }
    SplitJoin(parts, '.');
  }

  /**
   * `getTokenExpiration`: the `exp` claim in milliseconds when the payload is
   * an object with a numeric `exp`; null when decoding throws, yields
   * nothing, or has no numeric `exp`.
   */
  function GetTokenExpiration(token: string, parse: PayloadParser): (r: Option<int>)
    ensures r.Some? <==> DecodeJwt(token, parse).Returned?
                         && DecodeJwt(token, parse).payload.Some?
                         && DecodeJwt(token, parse).payload.value.exp.Some?
    ensures r.Some? ==> r.value == DecodeJwt(token, parse).payload.value.exp.value * 1000
    ensures Count(token, '.') != 2 ==> r == None
  {
    match DecodeJwt(token, parse)
    case Returned(Some(Payload(Some(seconds)))) => Some(seconds * 1000)
    case _ => None
  }

  /** JavaScript truthiness of a `number | null`: null and 0 are falsy. */
  predicate TruthyNumber(n: Option<int>)
  {
    n.Some? && n.value != 0
  }

  /**
   * `isTokenExpired` (and the same test in `initFromStorage`): an expiration
   * that is present and non-zero, and already reached.
   */
  predicate IsTokenExpired(expiration: Option<int>, now: int)
    ensures IsTokenExpired(expiration, now) ==> expiration.Some? && expiration.value <= now
    ensures expiration.Some? && expiration.value != 0 && expiration.value <= now ==> IsTokenExpired(expiration, now)
  {
    TruthyNumber(expiration) && now >= expiration.value
  }

  /** A token without `exp`, or with `exp` 0, never expires. */
  lemma NoExpirationNeverExpires(expiration: Option<int>, now: int)
    requires !TruthyNumber(expiration)
    ensures !IsTokenExpired(expiration, now)
  {
  }

  /** Once expired, a token stays expired as time goes on. */
  lemma ExpiryIsPermanent(expiration: Option<int>, now: int, later: int)
    requires IsTokenExpired(expiration, now) && now <= later
    ensures IsTokenExpired(expiration, later)
  {
  }
}
