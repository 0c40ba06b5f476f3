/** Go's `http.Header` as the core uses it: `Set` and `Get` both pass the key
    through `textproto.CanonicalMIMEHeaderKey`, so header names compare without
    regard to ASCII case. */
module HttpHeader {

  type Header = map<string, seq<string>>

  /** The bytes allowed in a header field name (a `token`, section 5.6.2 of
      RFC 9110). */
  predicate IsTokenChar(c: char) {
    || 'a' <= c <= 'z'
    || 'A' <= c <= 'Z'
    || '0' <= c <= '9'
    || c in "!#$%&'*+-.^_`|~"
  }

  predicate IsToken(s: string) {
    forall i :: 0 <= i < |s| ==> IsTokenChar(s[i])
  }

  function ToUpper(c: char): char {
    if 'a' <= c <= 'z' then (c as int - 32) as char else c
  }

  function ToLower(c: char): char {
    if 'A' <= c <= 'Z' then (c as int + 32) as char else c
  }

  /** Upper-cases the first letter and every letter right after a '-', and
      lower-cases every other letter (the loop in `textproto` tracks this with
      an `upper` flag that is set after each '-'). */
  function CanonicalCase(s: string): (r: string)
    ensures |r| == |s|
  {
    seq(|s|, i requires 0 <= i < |s| => if i == 0 || s[i - 1] == '-' then ToUpper(s[i]) else ToLower(s[i]))
  }

  /** `textproto.CanonicalMIMEHeaderKey`: a key holding a byte that may not
      appear in a field name is left as it is. */
  function CanonicalKey(key: string): (canonical: string)
    ensures |canonical| == |key|
    ensures !IsToken(key) ==> canonical == key
    ensures IsToken(key) && |key| > 0 ==> canonical[0] == ToUpper(key[0])
  {
    if IsToken(key) then CanonicalCase(key) else key
  }

  /** `Header.Set`. */
  function Set(h: Header, key: string, value: string): (r: Header)
    ensures r.Keys == h.Keys + {CanonicalKey(key)}
    ensures Get(r, key) == value
  {
    h[CanonicalKey(key) := [value]]
  }

  /** `Header.Get`: the first value under the canonical key, or "". */
  function Get(h: Header, key: string): (value: string)
    ensures CanonicalKey(key) !in h ==> value == ""
  {
    var k := CanonicalKey(key);
    if k in h && |h[k]| > 0 then h[k][0] else ""
  }

  /** Case-folding that the canonical form cannot see. */
  predicate SameIgnoringCase(s: string, t: string) {
    |s| == |t| && forall i :: 0 <= i < |s| ==> ToLower(s[i]) == ToLower(t[i])
  }

  lemma CanonicalCaseIsToken(s: string)
    requires IsToken(s)
    ensures IsToken(CanonicalCase(s))
  {
  }

  lemma CanonicalCaseIdempotent(s: string)
    ensures CanonicalCase(CanonicalCase(s)) == CanonicalCase(s)
  {
  }

  /** Canonicalising twice changes nothing more. */
  lemma CanonicalKeyIdempotent(key: string)
    ensures CanonicalKey(CanonicalKey(key)) == CanonicalKey(key)
  {
    if IsToken(key) {
      CanonicalCaseIsToken(key);
      CanonicalCaseIdempotent(key);
    }
  }

  /** Two spellings of a field name that differ only in ASCII case reach the
      same entry. */
  lemma CanonicalKeyIgnoresCase(s: string, t: string)
    requires IsToken(s) && SameIgnoringCase(s, t)
    ensures CanonicalKey(s) == CanonicalKey(t)
  {
    assert IsToken(t) by {
      forall i | 0 <= i < |t| ensures IsTokenChar(t[i]) {
        assert IsTokenChar(s[i]);
        assert ToLower(s[i]) == ToLower(t[i]);
      }
    }
    forall i | 0 <= i < |s| ensures CanonicalCase(s)[i] == CanonicalCase(t)[i] {
      assert ToLower(s[i]) == ToLower(t[i]);
      if i > 0 {
        assert ToLower(s[i - 1]) == ToLower(t[i - 1]);
      }
    }
  }

  /** What `Set` stores, `Get` returns under any spelling with the same
      canonical form; other names are untouched. */
  lemma GetAfterSet(h: Header, key: string, value: string, probe: string)
    ensures CanonicalKey(probe) == CanonicalKey(key) ==> Get(Set(h, key, value), probe) == value
    ensures CanonicalKey(probe) != CanonicalKey(key) ==> Get(Set(h, key, value), probe) == Get(h, probe)
  {
  }
}
