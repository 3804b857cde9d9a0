/** `decodeJWT` of src/App.js: pick the payload segment of a compact token, turn its
    base64url alphabet into the base64 one, let `atob` decode it, escape every decoded byte
    as `%hh`, let `decodeURIComponent` and `JSON.parse` turn that into the claims, and
    yield null when any step fails. `atob`, `decodeURIComponent` and `JSON.parse` are
    library code and are parameters here. */
module Jwt {
  import opened Wrappers

  /** A character code of the binary string that `atob` returns. */
  type Byte = b: int | 0 <= b < 256

  // ---------------------------------------------------------------- segments

  /** `s.split(sep)` for a one-character separator. */
  function Split(s: string, sep: char): (parts: seq<string>)
    ensures |parts| >= 1
    ensures forall i :: 0 <= i < |parts| ==> sep !in parts[i]
  {
    if s == [] then [""]
    else
      var rest := Split(s[1..], sep);
      if s[0] == sep then [""] + rest
      else [[s[0]] + rest[0]] + rest[1..]
  }

  /** `parts.join(sep)`. */
  function Join(parts: seq<string>, sep: char): string
    requires |parts| >= 1
  {
    if |parts| == 1 then parts[0] else parts[0] + [sep] + Join(parts[1..], sep)
  }

  /** Splitting loses nothing: joining the parts again gives the string back. */
  lemma {:induction false} SplitJoin(s: string, sep: char)
    ensures Join(Split(s, sep), sep) == s
  {
    if s != [] {
      var rest := Split(s[1..], sep);
      SplitJoin(s[1..], sep);
      if s[0] == sep {
        assert ([""] + rest)[1..] == rest;
      } else if |rest| > 1 {
        var parts := Split(s, sep);
        assert parts[1..] == rest[1..];
        assert Join(rest, sep) == rest[0] + [sep] + Join(rest[1..], sep);
      }
    }
  }

  /** The index of the first c in s, or |s| when there is none. */
  function IndexOf(s: string, c: char): (k: nat)
    ensures k <= |s| && c !in s[..k]
    ensures k < |s| ==> s[k] == c
  {
    if s == [] || s[0] == c then 0 else 1 + IndexOf(s[1..], c)
  }

  /** The first part of a split ends at the first separator, and the other parts are the
      split of what follows it. */
  lemma {:induction false} SplitAtFirst(s: string, sep: char)
    ensures Split(s, sep)[0] == s[..IndexOf(s, sep)]
    ensures IndexOf(s, sep) < |s| ==> Split(s, sep)[1..] == Split(s[IndexOf(s, sep) + 1..], sep)
    ensures |Split(s, sep)| >= 2 <==> sep in s
  {
    if s != [] && s[0] != sep {
      SplitAtFirst(s[1..], sep);
      SplitAtFirstStep(s, sep);
    }
  }

  /** The step of SplitAtFirst: a leading non-separator joins the first part of the rest,
      and the later parts are those of the rest. */
  lemma SplitAtFirstStep(s: string, sep: char)
    requires s != [] && s[0] != sep
    requires var t := s[1..];
             && Split(t, sep)[0] == t[..IndexOf(t, sep)]
             && (IndexOf(t, sep) < |t| ==> Split(t, sep)[1..] == Split(t[IndexOf(t, sep) + 1..], sep))
             && (|Split(t, sep)| >= 2 <==> sep in t)
    ensures Split(s, sep)[0] == s[..IndexOf(s, sep)]
    ensures IndexOf(s, sep) < |s| ==> Split(s, sep)[1..] == Split(s[IndexOf(s, sep) + 1..], sep)
    ensures |Split(s, sep)| >= 2 <==> sep in s
  {
    SplitOfNonSeparator(s, sep);
    FirstPartStep(s, sep, IndexOf(s[1..], sep));
    LaterPartsStep(s, sep, IndexOf(s[1..], sep));
    assert sep in s <==> sep in s[1..] by {
      assert s == [s[0]] + s[1..];
    }
  }

  lemma FirstPartStep(s: string, sep: char, k: nat)
    requires s != [] && s[0] != sep && k == IndexOf(s[1..], sep)
    ensures IndexOf(s, sep) == 1 + k
    ensures s[..1 + k] == [s[0]] + s[1..][..k]
  {
  }

  lemma LaterPartsStep(s: string, sep: char, k: nat)
    requires s != [] && s[0] != sep && k == IndexOf(s[1..], sep)
    ensures k < |s[1..]| ==> s[1..][k + 1..] == s[1 + k + 1..]
  {
  }

  /** Split of a string that starts with a non-separator, in terms of the split of its tail. */
  lemma SplitOfNonSeparator(s: string, sep: char)
    requires s != [] && s[0] != sep
    ensures Split(s, sep)[0] == [s[0]] + Split(s[1..], sep)[0]
    ensures Split(s, sep)[1..] == Split(s[1..], sep)[1..]
    ensures |Split(s, sep)| == |Split(s[1..], sep)|
  {
    var rest := Split(s[1..], sep);
    assert Split(s, sep) == [[s[0]] + rest[0]] + rest[1..];
  }

  /** `token.split('.')[1]`: None when the token has no second segment (reading
      `.replace` of undefined throws). */
  function PayloadSegment(token: string): (r: Option<string>)
    ensures r.Some? ==> '.' !in r.value
  {
    var parts := Split(token, '.');
    if |parts| >= 2 then Some(parts[1]) else None
  }

  /** The payload segment, found by index: the text after the first dot, up to the
      second dot or the end. */
  function TextAfterFirstDot(token: string): Option<string> {
    var i := IndexOf(token, '.');
    if i == |token| then None
    else
      var rest := token[i + 1..];
      Some(rest[..IndexOf(rest, '.')])
  }

  /** decodeJWT reads the second dot-separated segment and nothing else. */
  lemma PayloadSegmentIsSecond(token: string)
    ensures PayloadSegment(token) == TextAfterFirstDot(token)
    ensures PayloadSegment(token).Some? <==> '.' in token
  {
    SplitAtFirst(token, '.');
    var i := IndexOf(token, '.');
    if i < |token| {
      SplitAtFirst(token[i + 1..], '.');
    }
  }

  /** Any header and any signature around the same payload give the same segment. */
  lemma {:induction false} SegmentOfToken(header: string, payload: string, signature: string)
    requires '.' !in header && '.' !in payload
    ensures PayloadSegment(header + "." + payload + "." + signature) == Some(payload)
    ensures PayloadSegment(header + "." + payload) == Some(payload)
  {
    var t1 := header + "." + payload + "." + signature;
    var t2 := header + "." + payload;
    assert IndexOf("." + payload + "." + signature, '.') == 0;
    assert IndexOf("." + payload, '.') == 0;
    assert IndexOf("." + signature, '.') == 0;
    assert t1 == header + ("." + payload + "." + signature);
    assert t2 == header + ("." + payload);
    IndexOfPrefix(header, "." + payload + "." + signature, '.');
    IndexOfPrefix(header, "." + payload, '.');
    var rest1 := t1[|header| + 1..];
    var rest2 := t2[|header| + 1..];
    assert rest1 == payload + ("." + signature);
    assert rest2 == payload + "";
    IndexOfPrefix(payload, "." + signature, '.');
    IndexOfPrefix(payload, "", '.');
    assert rest1[..IndexOf(rest1, '.')] == payload;
    assert rest2[..IndexOf(rest2, '.')] == payload;
    PayloadSegmentIsSecond(t1);
    PayloadSegmentIsSecond(t2);
  }

  lemma {:induction false} IndexOfPrefix(a: string, b: string, c: char)
    requires c !in a
    ensures IndexOf(a + b, c) == |a| + IndexOf(b, c)
    ensures (a + b)[..|a| + IndexOf(b, c)] == a + b[..IndexOf(b, c)]
  {
    if a != [] {
      assert (a + b)[0] == a[0] && a[0] != c;
      assert (a + b)[1..] == a[1..] + b;
      assert IndexOf(a + b, c) == 1 + IndexOf(a[1..] + b, c);
      IndexOfPrefix(a[1..], b, c);
    } else {
      assert a + b == b;
    }
  }

  // ---------------------------------------------------------------- alphabets

  /** `s.replace(/from/g, to)` for one character. */
  function ReplaceAll(s: string, from: char, to: char): (r: string)
    ensures |r| == |s|
    ensures forall i :: 0 <= i < |s| ==> r[i] == (if s[i] == from then to else s[i])
  {
    if s == [] then [] else [if s[0] == from then to else s[0]] + ReplaceAll(s[1..], from, to)
  }

  /** The base64 character that stands where a base64url character stood: section 5 of
      RFC 4648 uses '-' and '_' where section 4 uses '+' and '/'. */
  function StandardChar(c: char): char {
    if c == '-' then '+' else if c == '_' then '/' else c
  }

  /** `base64Url.replace(/-/g, '+').replace(/_/g, '/')`. */
  function UrlToStandardAlphabet(s: string): (r: string)
    ensures |r| == |s|
    ensures forall i :: 0 <= i < |s| ==> r[i] == StandardChar(s[i])
    ensures '-' !in r && '_' !in r
  {
    ReplaceAll(ReplaceAll(s, '-', '+'), '_', '/')
  }

  /** The opposite substitution, base64 back to base64url. */
  function StandardToUrlAlphabet(s: string): (r: string)
    ensures |r| == |s|
  {
    ReplaceAll(ReplaceAll(s, '+', '-'), '/', '_')
  }

  /** On a base64url string (no '+' and no '/'), the substitution is undone exactly, so
      no character is lost or confused. */
  lemma AlphabetRoundTrip(s: string)
    requires '+' !in s && '/' !in s
    ensures StandardToUrlAlphabet(UrlToStandardAlphabet(s)) == s
  {
    var r := StandardToUrlAlphabet(UrlToStandardAlphabet(s));
    forall i | 0 <= i < |s| ensures r[i] == s[i] {
      assert s[i] != '+' && s[i] != '/';
    }
  }

  // ---------------------------------------------------------------- %hh escape

  /** The lower-case hexadecimal digit of d, as `toString(16)` writes it. */
  function HexDigit(d: nat): char
    requires d < 16
  {
    if d < 10 then ('0' as int + d) as char else ('a' as int + d - 10) as char
  }

  /** The value of a hexadecimal digit of either case, as `decodeURIComponent` reads it. */
  function HexValue(c: char): Option<nat> {
    if '0' <= c <= '9' then Some(c as int - '0' as int)
    else if 'a' <= c <= 'f' then Some(c as int - 'a' as int + 10)
    else if 'A' <= c <= 'F' then Some(c as int - 'A' as int + 10)
    else None
  }

  /** `n.toString(16)`. */
  function ToHex(n: nat): (r: string)
    ensures 1 <= |r|
    ensures n < 16 ==> r == [HexDigit(n)]
    ensures 16 <= n < 256 ==> r == [HexDigit(n / 16), HexDigit(n % 16)]
  {
    if n < 16 then [HexDigit(n)] else ToHex(n / 16) + [HexDigit(n % 16)]
  }

  /** `'%' + ('00' + b.toString(16)).slice(-2)`: a percent sign and exactly two lower-case
      hexadecimal digits whose value is the byte. */
  function EscapeByte(b: Byte): (r: string)
    ensures |r| == 3 && r[0] == '%'
    ensures '0' <= r[1] <= '9' || 'a' <= r[1] <= 'f'
    ensures '0' <= r[2] <= '9' || 'a' <= r[2] <= 'f'
    ensures HexValue(r[1]).Some? && HexValue(r[2]).Some?
    ensures HexValue(r[1]).value * 16 + HexValue(r[2]).value == b
  {
    var padded := "00" + ToHex(b);
    "%" + padded[|padded| - 2..]
  }

  /** The escaped bytes, joined. */
  function PercentEscape(bytes: seq<Byte>): (r: string)
    ensures |r| == 3 * |bytes|
  {
    if bytes == [] then [] else EscapeByte(bytes[0]) + PercentEscape(bytes[1..])
  }

  /** The bytes that a string of `%hh` escapes stands for; None for anything else. */
  function Unescape(s: string): Option<seq<Byte>>
    decreases |s|
  {
    if s == [] then Some([])
    else if |s| < 3 || s[0] != '%' then None
    else match (HexValue(s[1]), HexValue(s[2]), Unescape(s[3..]))
      case (Some(h), Some(l), Some(rest)) =>
        if h < 16 && l < 16 then Some([h * 16 + l] + rest) else None
      case _ => None
  }

  /** Escaping is undone by unescaping: the escape loses no byte. */
  lemma {:induction false} EscapeRoundTrip(bytes: seq<Byte>)
    ensures Unescape(PercentEscape(bytes)) == Some(bytes)
  {
    if bytes != [] {
      var e := EscapeByte(bytes[0]);
      var s := PercentEscape(bytes);
      EscapeRoundTrip(bytes[1..]);
      assert s[..3] == e && s[3..] == PercentEscape(bytes[1..]);
      assert HexValue(e[1]).value < 16 && HexValue(e[2]).value < 16;
      assert [bytes[0]] + bytes[1..] == bytes;
    }
  }

  // ---------------------------------------------------------------- decodeJWT

  /** The library functions decodeJWT calls: each yields None where it would throw. */
  datatype Decoders<C> = Decoders(
    atob: string -> Option<seq<Byte>>,
    decodeUriComponent: string -> Option<string>,
    parseJson: string -> Option<C>)

  /** decodeJWT: the claims, or None (null) when any step fails; no failure escapes. The
      steps are: take the payload segment, turn it into standard base64 and decode it to
      bytes, escape the bytes as `%hh` and decode them as UTF-8 text, parse the text as
      JSON. */
  function DecodeJwt<C>(token: string, lib: Decoders<C>): (r: Option<C>)
    ensures PayloadSegment(token).None? ==> r == None
    ensures PayloadSegment(token).Some? ==>
              var bytes := lib.atob(UrlToStandardAlphabet(PayloadSegment(token).value));
              && (bytes.None? ==> r == None)
              && (bytes.Some? ==>
                    var json := lib.decodeUriComponent(PercentEscape(bytes.value));
                    && (json.None? ==> r == None)
                    && (json.Some? ==> r == lib.parseJson(json.value)))
  {
    match PayloadSegment(token)
    case None => None
    case Some(segment) =>
      match lib.atob(UrlToStandardAlphabet(segment))
      case None => None
      case Some(bytes) =>
        match lib.decodeUriComponent(PercentEscape(bytes))
        case None => None
        case Some(json) => lib.parseJson(json)
  }

  /** A token without a dot never decodes. */
  lemma DecodeWithoutDot<C>(token: string, lib: Decoders<C>)
    requires '.' !in token
    ensures DecodeJwt(token, lib) == None
  {
    PayloadSegmentIsSecond(token);
  }

  /** The header and the signature play no part: tokens with the same payload segment
      decode alike. */
  lemma DecodeIgnoresHeaderAndSignature<C>(h1: string, s1: string, h2: string, s2: string,
                                           payload: string, lib: Decoders<C>)
    requires '.' !in h1 && '.' !in h2 && '.' !in payload
    ensures DecodeJwt(h1 + "." + payload + "." + s1, lib) == DecodeJwt(h2 + "." + payload + "." + s2, lib)
  {
    SegmentOfToken(h1, payload, s1);
    SegmentOfToken(h2, payload, s2);
  }

  /** A token header.payload.signature decodes to the claims the three library steps make
      of its payload, whatever the header and the signature. */
  lemma DecodesPayloadClaims<C>(header: string, payload: string, signature: string,
                                lib: Decoders<C>, bytes: seq<Byte>, json: string, claims: C)
    requires '.' !in header && '.' !in payload
    requires lib.atob(UrlToStandardAlphabet(payload)) == Some(bytes)
    requires lib.decodeUriComponent(PercentEscape(bytes)) == Some(json)
    requires lib.parseJson(json) == Some(claims)
    ensures DecodeJwt(header + "." + payload + "." + signature, lib) == Some(claims)
  {
    SegmentOfToken(header, payload, signature);
  }
}
