/**
 * HTTP header maps as the Go standard library keeps them: a map from header
 * name to the list of values sent under that name. Every access goes through
 * the canonical form of the name ("x-http-user" and "X-HTTP-USER" both become
 * "X-Http-User"), so `Add` and `Set` on a request or response header act on the
 * canonical entry only.
 */
module Headers {

  type Header = map<string, seq<string>>

  /** A character allowed in a header field name (an RFC 7230 `tchar`). */
  predicate IsTokenChar(c: char) {
    ('a' <= c <= 'z') || ('A' <= c <= 'Z') || ('0' <= c <= '9') ||
    c in "!#$%&'*+-.^_`|~"
  }

  /** A name made only of token characters; other names are never rewritten. */
  predicate IsTokenName(s: string) {
    forall i :: 0 <= i < |s| ==> IsTokenChar(s[i])
  }

  /** Case of one character, given whether it starts a word of the name. */
  function FoldCase(c: char, upper: bool): char {
    if upper && 'a' <= c <= 'z' then (c as int - 32) as char
    else if !upper && 'A' <= c <= 'Z' then (c as int + 32) as char
    else c
  }

  /** Canonical spelling of `s`, where `upper` says whether `s[0]` starts a word. */
  function CanonicalFrom(s: string, upper: bool): (r: string)
    ensures |r| == |s|
    ensures |s| > 0 ==> r[0] == FoldCase(s[0], upper)
  {
    if s == [] then [] else [FoldCase(s[0], upper)] + CanonicalFrom(s[1..], s[0] == '-')
  }

  /**
   * Canonical form of a header name: the first letter and every letter after
   * a hyphen in upper case, every other letter in lower case. A name holding a
   * character that is not a token character is left as it is.
   */
  function CanonicalKey(s: string): (r: string)
    ensures |r| == |s|
    ensures !IsTokenName(s) ==> r == s
    ensures IsTokenName(s) ==> IsTokenName(r)
    ensures IsTokenName(s) ==>
      forall i :: 0 <= i < |s| ==> r[i] == FoldCase(s[i], i == 0 || s[i - 1] == '-')
  {
    if IsTokenName(s) then
      TokenNamePreserved(s, true);
      assert forall i :: 0 <= i < |s| ==> CanonicalFrom(s, true)[i] == FoldCase(s[i], i == 0 || s[i - 1] == '-') by {
        forall i | 0 <= i < |s| ensures CanonicalFrom(s, true)[i] == FoldCase(s[i], i == 0 || s[i - 1] == '-') {
          CanonicalAt(s, true, i);
        }
      }
      CanonicalFrom(s, true)
    else s
  }

  lemma {:induction false} TokenNamePreserved(s: string, upper: bool)
    requires IsTokenName(s)
    ensures IsTokenName(CanonicalFrom(s, upper))
  {
    if s != [] {
      TokenNamePreserved(s[1..], s[0] == '-');
      var r := CanonicalFrom(s, upper);
      assert r == [FoldCase(s[0], upper)] + CanonicalFrom(s[1..], s[0] == '-');
      forall i | 0 <= i < |r| ensures IsTokenChar(r[i]) {
        if i > 0 {
          assert r[i] == CanonicalFrom(s[1..], s[0] == '-')[i - 1];
        } else {
          assert IsTokenChar(s[0]);
        }
      }
    }
  }

  lemma {:induction false} CanonicalFromIdempotent(s: string, upper: bool)
    ensures CanonicalFrom(CanonicalFrom(s, upper), upper) == CanonicalFrom(s, upper)
  {
    if s != [] {
      var r := CanonicalFrom(s, upper);
      var tail := CanonicalFrom(s[1..], s[0] == '-');
      assert r == [FoldCase(s[0], upper)] + tail;
      assert r[1..] == tail;
      assert (r[0] == '-') == (s[0] == '-');
      CanonicalFromIdempotent(s[1..], s[0] == '-');
    }
  }

  /** Canonicalising a name twice gives the same name as canonicalising it once. */
  lemma CanonicalKeyIdempotent(s: string)
    ensures CanonicalKey(CanonicalKey(s)) == CanonicalKey(s)
  {
    if IsTokenName(s) {
      CanonicalFromIdempotent(s, true);
    }
  }

  /**
   * The header maps the HTTP server hands to a handler: every name is stored in
   * canonical form, because the server canonicalises names while reading them.
   */
  predicate WellFormed(h: Header) {
    forall k :: k in h ==> CanonicalKey(k) == k
  }

  /** All values stored under `key` (Go's `Header.Values`). */
  function Values(h: Header, key: string): (vs: seq<string>)
    ensures CanonicalKey(key) in h ==> vs == h[CanonicalKey(key)]
    ensures CanonicalKey(key) !in h ==> vs == []
  {
    var ck := CanonicalKey(key);
    if ck in h then h[ck] else []
  }

  /** Appends `value` to the values under `key`, keeping the ones already there (Go's `Header.Add`). */
  function Add(h: Header, key: string, value: string): (r: Header)
    ensures Values(r, key) == Values(h, key) + [value]
    ensures forall k :: k != CanonicalKey(key) ==> (k in r <==> k in h)
    ensures forall k :: k in h && k != CanonicalKey(key) ==> r[k] == h[k]
    ensures WellFormed(h) ==> WellFormed(r)
  {
    CanonicalKeyIdempotent(key);
    h[CanonicalKey(key) := Values(h, key) + [value]]
  }

  /** Replaces every value under `key` by the single `value` (Go's `Header.Set`). */
  function Set(h: Header, key: string, value: string): (r: Header)
    ensures Values(r, key) == [value]
    ensures forall k :: k != CanonicalKey(key) ==> (k in r <==> k in h)
    ensures forall k :: k in h && k != CanonicalKey(key) ==> r[k] == h[k]
    ensures WellFormed(h) ==> WellFormed(r)
    ensures WellFormed(h) ==>
      forall k :: k in r && CanonicalKey(k) == CanonicalKey(key) ==> r[k] == [value]
  {
    CanonicalKeyIdempotent(key);
    h[CanonicalKey(key) := [value]]
  }

  /** Each character of a canonical name depends only on itself and the one before it. */
  lemma {:induction false} CanonicalAt(s: string, upper: bool, i: nat)
    requires i < |s|
    ensures CanonicalFrom(s, upper)[i] == FoldCase(s[i], if i == 0 then upper else s[i - 1] == '-')
  {
    if i > 0 {
      CanonicalAt(s[1..], s[0] == '-', i - 1);
    }
  }

  /** The identity header's name is stored as "X-Http-User". */
  lemma IdentityHeaderCanonical()
    ensures CanonicalKey("X-HTTP-USER") == "X-Http-User"
  {
    var name := "X-HTTP-USER";
    assert IsTokenName(name) by {
      forall i | 0 <= i < |name| ensures IsTokenChar(name[i]) {
        assert 'A' <= name[i] <= 'Z' || name[i] == '-';
      }
    }
    var r := CanonicalFrom(name, true);
    forall i | 0 <= i < |name| ensures r[i] == "X-Http-User"[i] {
      CanonicalAt(name, true, i);
    }
  }

  /**
   * `Set` only replaces the canonical entry: in a map that was not built by the
   * server and still holds a lower-case spelling, that spelling survives.
   */
  lemma NonCanonicalEntrySurvivesSet()
    ensures var r := Set(map["x-http-user" := ["mallory"]], "X-HTTP-USER", "bubbles");
      r["x-http-user"] == ["mallory"] && "X-Http-User" in r && r["X-Http-User"] == ["bubbles"]
  {
    IdentityHeaderCanonical();
  }
}
