/**
 * `issecure(req, trustProxy)`: whether a request reached the server over an
 * encrypted transport, which gates sending a `secure` cookie.
 */
module Transport {
  import opened Wrappers
  import opened Options

  /**
   * What issecure reads from the request: whether the socket is encrypted,
   * whether `req.secure` is exactly true (set by an upstream framework), and
   * the X-Forwarded-Proto header if any.
   */
  datatype SecurityFacts = SecurityFacts(encrypted: bool, secureFlag: bool, forwardedProto: Option<string>)

  /** `s.indexOf(c)`: the first position holding `c`, or -1. */
  function IndexOfChar(s: string, c: char): (r: int)
    ensures -1 <= r < |s|
    ensures r == -1 <==> c !in s
    ensures 0 <= r ==> s[r] == c && c !in s[..r]
  {
    if s == [] then -1
    else if s[0] == c then 0
    else
      var r := IndexOfChar(s[1..], c);
      assert s == [s[0]] + s[1..];
      if r == -1 then -1
      else
        assert s[..r + 1] == [s[0]] + s[1..][..r];
        r + 1
  }

  /**
   * Lower-casing as far as the gate can observe it: only ASCII letters are
   * folded. No other character lower-cases into a letter of "https" or into
   * white space, so the comparison the gate makes is unaffected.
   */
  function LowerChar(c: char): char {
    if 'A' <= c <= 'Z' then (c as int + 32) as char else c
  }

  function ToLower(s: string): (r: string)
    ensures |r| == |s|
    ensures forall k :: 0 <= k < |s| ==> r[k] == LowerChar(s[k])
  {
    if s == [] then [] else [LowerChar(s[0])] + ToLower(s[1..])
  }

  /** The characters String.prototype.trim removes: white space and line terminators. */
  predicate IsSpace(c: char) {
    || c == '\t' || c == '\n' || c == '\U{000B}' || c == '\U{000C}' || c == '\r' || c == ' '
    || c == '\U{00A0}' || c == '\U{1680}' || ('\U{2000}' <= c <= '\U{200A}')
    || c == '\U{2028}' || c == '\U{2029}' || c == '\U{202F}' || c == '\U{205F}'
    || c == '\U{3000}' || c == '\U{FEFF}'
  }

  predicate AllSpace(s: string) {
    forall k :: 0 <= k < |s| ==> IsSpace(s[k])
  }

  /** The length of the run of white space at the start of `s`. */
  function LeadingSpace(s: string): (n: nat)
    ensures n <= |s| && AllSpace(s[..n])
    ensures n < |s| ==> !IsSpace(s[n])
  {
    if s == [] || !IsSpace(s[0]) then 0
    else
      var n := LeadingSpace(s[1..]);
      assert s[..n + 1] == [s[0]] + s[1..][..n];
      n + 1
  }

  /** The length of the run of white space at the end of `s`. */
  function TrailingSpace(s: string): (n: nat)
    ensures n <= |s| && forall k :: |s| - n <= k < |s| ==> IsSpace(s[k])
    ensures n < |s| ==> !IsSpace(s[|s| - n - 1])
  {
    if s == [] || !IsSpace(s[|s| - 1]) then 0
    else
      var front := s[..|s| - 1];
      var n := TrailingSpace(front);
      assert forall k :: |s| - n - 1 <= k < |s| - 1 ==> s[k] == front[k];
      n + 1
  }

  /**
   * `s.trim()`: the input with its surrounding white space removed. The
   * result is the part of `s` after the white space it starts with, the rest
   * of `s` after it is white space, and the result neither starts nor ends
   * with white space.
   */
  function Trim(s: string): (r: string)
    ensures LeadingSpace(s) + |r| <= |s| && r == s[LeadingSpace(s)..LeadingSpace(s) + |r|]
    ensures AllSpace(s[LeadingSpace(s) + |r|..])
    ensures r == [] || (!IsSpace(r[0]) && !IsSpace(r[|r| - 1]))
    ensures r == [] <==> AllSpace(s)
  {
    var lead := LeadingSpace(s);
    if lead == |s| then
      assert s[..lead] == s;
      ""
    else
      var trail := TrailingSpace(s);
      assert trail < |s| - lead;
      s[lead..|s| - trail]
  }

  /** Trimming removes exactly the padding around a value that has none of its own. */
  lemma {:induction false} TrimPadded(before: string, x: string, after: string)
    requires AllSpace(before) && AllSpace(after)
    requires x != [] && !IsSpace(x[0]) && !IsSpace(x[|x| - 1])
    ensures Trim(before + x + after) == x
  {
    var s := before + x + after;
    LeadingSpaceOfPadded(before, x + after);
    assert s == before + (x + after);
    TrailingSpaceOfPadded(before + x, after);
    assert s[|before|..|s| - |after|] == x;
  }

  lemma {:induction false} LeadingSpaceOfPadded(before: string, rest: string)
    requires AllSpace(before) && rest != [] && !IsSpace(rest[0])
    ensures LeadingSpace(before + rest) == |before|
  {
    if before != [] {
      assert (before + rest)[1..] == before[1..] + rest;
      LeadingSpaceOfPadded(before[1..], rest);
    } else {
      assert before + rest == rest;
    }
  }

  lemma {:induction false} TrailingSpaceOfPadded(rest: string, after: string)
    requires AllSpace(after) && rest != [] && !IsSpace(rest[|rest| - 1])
    ensures TrailingSpace(rest + after) == |after|
  {
    if after != [] {
      var s := rest + after;
      assert s[..|s| - 1] == rest + after[..|after| - 1];
      TrailingSpaceOfPadded(rest, after[..|after| - 1]);
    } else {
      assert rest + after == rest;
    }
  }

  /** The protocol issecure reads: the first comma-separated element, lower-cased and trimmed. */
  function FirstProto(header: string): string {
    var comma := IndexOfChar(header, ',');
    Trim(ToLower(if comma != -1 then header[..comma] else header))
  }

  /** `issecure(req, trustProxy)` (index.js:642-672). */
  function IsSecure(req: SecurityFacts, trust: ProxyTrust): (r: bool)
    ensures req.encrypted ==> r
    ensures !req.encrypted && trust == ProxyFalse ==> !r
    ensures !req.encrypted && trust == ProxyUnset ==> (r <==> req.secureFlag)
    ensures !req.encrypted && trust == ProxyTrue ==>
      (r <==> FirstProto(if req.forwardedProto.Some? then req.forwardedProto.value else "") == "https")
  {
    if req.encrypted then true
    else if trust == ProxyFalse then false
    else if trust != ProxyTrue then req.secureFlag
    else
      var header := if req.forwardedProto.Some? then req.forwardedProto.value else "";
      FirstProto(header) == "https"
  }

  /** Only the first element of a forwarded-protocol list decides. */
  lemma {:induction false} FirstElementDecides(first: string, rest: string)
    requires ',' !in first
    ensures FirstProto(first + "," + rest) == FirstProto(first)
  {
    var header := first + "," + rest;
    var i := IndexOfChar(header, ',');
    assert header[..|first|] == first;
    assert header[|first|] == ',';
    assert i == |first|;
  }

  /** A padded, any-case "https" reads as "https". */
  lemma {:induction false} PaddedHttps(before: string, proto: string, after: string)
    requires AllSpace(before) && AllSpace(after)
    requires ToLower(proto) == "https"
    requires ',' !in before + proto + after
    ensures FirstProto(before + proto + after) == "https"
  {
    var first := before + proto + after;
    assert IndexOfChar(first, ',') == -1;
    calc {
      FirstProto(first);
      Trim(ToLower(first));
      { LowerConcat(before, proto, after); }
      Trim(ToLower(before) + "https" + ToLower(after));
      { LowerKeepsSpace(before); LowerKeepsSpace(after);
        TrimPadded(ToLower(before), "https", ToLower(after)); }
      "https";
    }
  }

  /**
   * With proxy trust on, an unencrypted request is secure when the first
   * forwarded protocol reads "https" in any letter case and with any padding,
   * whatever the later elements say.
   */
  lemma {:induction false} ForwardedHttpsIsSecure(req: SecurityFacts, before: string, proto: string, after: string, rest: string)
    requires AllSpace(before) && AllSpace(after)
    requires ToLower(proto) == "https"
    requires ',' !in before + proto + after
    requires req.forwardedProto == Some(before + proto + after + "," + rest)
    ensures IsSecure(req, ProxyTrue)
  {
    FirstElementDecides(before + proto + after, rest);
    PaddedHttps(before, proto, after);
  }

  lemma LowerConcat(a: string, b: string, c: string)
    ensures ToLower(a + b + c) == ToLower(a) + ToLower(b) + ToLower(c)
  {
    var l := ToLower(a + b + c);
    var r := ToLower(a) + ToLower(b) + ToLower(c);
    assert |l| == |r|;
    forall k | 0 <= k < |l| ensures l[k] == r[k] {
      if k < |a| {
        assert (a + b + c)[k] == a[k];
      } else if k < |a| + |b| {
        assert (a + b + c)[k] == b[k - |a|];
      } else {
        assert (a + b + c)[k] == c[k - |a| - |b|];
      }
    }
  }

  lemma LowerKeepsSpace(w: string)
    requires AllSpace(w)
    ensures AllSpace(ToLower(w))
  {
  }
}
