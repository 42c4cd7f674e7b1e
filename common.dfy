/** Values and string helpers shared by every part of the model: optional
    values, the outcome of a call to an external system, JavaScript
    truthiness of optional strings, `startsWith`, `trim` and the first-match
    search that `Array.prototype.find` performs. */
module Common {

  datatype Option<+T> = None | Some(value: T)

  /** The outcome of one call to the link service or the repository. A
      failed call is an exception, which the hooks catch. */
  datatype Reply<+T> = Ok(value: T) | Fail

  /** JavaScript truthiness of a value that is either a string or absent
      (`undefined`/`null`): only a present, non-empty string is truthy. */
  predicate Truthy(s: Option<string>) {
    s.Some? && s.value != ""
  }

  /** `s.startsWith(p)` */
  predicate StartsWith(s: string, p: string) {
    |p| <= |s| && s[..|p|] == p
  }

  /** The first element of `s` that satisfies `p`, as `s.find(p)` returns it. */
  function Find<T>(s: seq<T>, p: T -> bool): Option<T> {
    if |s| == 0 then None
    else if p(s[0]) then Some(s[0])
    else Find(s[1..], p)
  }

  /** `Find` answers `None` exactly when no element satisfies `p`, and
      otherwise an element at an index where `p` holds for the first time. */
  lemma {:induction false} FindFirst<T>(s: seq<T>, p: T -> bool)
    ensures Find(s, p).None? <==> forall i :: 0 <= i < |s| ==> !p(s[i])
    ensures Find(s, p).Some? ==> exists i :: 0 <= i < |s| && s[i] == Find(s, p).value && p(s[i]) &&
                                             forall j :: 0 <= j < i ==> !p(s[j])
  {
    if |s| > 0 && !p(s[0]) {
      FindFirst(s[1..], p);
      assert forall i :: 1 <= i < |s| ==> s[i] == s[1..][i - 1];
      if Find(s, p).Some? {
        var k :| 0 <= k < |s[1..]| && s[1..][k] == Find(s, p).value && p(s[1..][k]) &&
                 forall j :: 0 <= j < k ==> !p(s[1..][j]);
        assert s[k + 1] == Find(s, p).value;
      }
    }
  }

  /** Where `p` first holds is what `Find` answers. */
  lemma FindAt<T>(s: seq<T>, p: T -> bool, i: nat)
    requires i < |s| && p(s[i])
    requires forall j :: 0 <= j < i ==> !p(s[j])
    ensures Find(s, p) == Some(s[i])
  {
    FindFirst(s, p);
    var k :| 0 <= k < |s| && s[k] == Find(s, p).value && p(s[k]) && forall j :: 0 <= j < k ==> !p(s[j]);
    assert k == i;
  }

  /** Decimal digits of a natural number, used to mint identifiers. */
  function NatText(n: nat): (r: string)
    ensures |r| > 0
    ensures forall i :: 0 <= i < |r| ==> '0' <= r[i] <= '9'
  {
    var d := ['0' + (n % 10) as char];
    if n < 10 then d else NatText(n / 10) + d
  }

  /** The characters that `String.prototype.trim` removes: ECMAScript
      WhiteSpace (tab, vertical tab, form feed, space, no-break space,
      byte-order mark and the Unicode space separators) and LineTerminator. */
  predicate IsJsSpace(c: char) {
    c == '\U{9}' || c == '\U{B}' || c == '\U{C}' || c == ' ' ||
    c == '\U{A0}' || c == '\U{FEFF}' || c == '\U{1680}' ||
    ('\U{2000}' <= c <= '\U{200A}') || c == '\U{202F}' || c == '\U{205F}' || c == '\U{3000}' ||
    c == '\U{A}' || c == '\U{D}' || c == '\U{2028}' || c == '\U{2029}'
  }

  /** White space only (the empty string included). */
  predicate IsBlank(s: string) {
    forall i :: 0 <= i < |s| ==> IsJsSpace(s[i])
  }

  /** `s.trimStart()`: `s` without its leading white space. */
  function TrimStart(s: string): string {
    if |s| > 0 && IsJsSpace(s[0]) then TrimStart(s[1..]) else s
  }

  /** `s.trimEnd()`: `s` without its trailing white space. */
  function TrimEnd(s: string): string {
    if |s| > 0 && IsJsSpace(s[|s| - 1]) then TrimEnd(s[..|s| - 1]) else s
  }

  /** `s.trim()` */
  function Trim(s: string): string {
    TrimEnd(TrimStart(s))
  }

  /** What `trimStart` leaves is a suffix that starts with a non-space. */
  lemma {:induction false} TrimStartShape(s: string)
    ensures |TrimStart(s)| <= |s| && TrimStart(s) == s[|s| - |TrimStart(s)|..]
    ensures TrimStart(s) == "" || !IsJsSpace(TrimStart(s)[0])
  {
    if |s| > 0 && IsJsSpace(s[0]) {
      TrimStartShape(s[1..]);
    }
  }

  lemma {:induction false} TrimStartEmpty(s: string)
    ensures TrimStart(s) == "" <==> IsBlank(s)
  {
    if |s| > 0 && IsJsSpace(s[0]) {
      TrimStartEmpty(s[1..]);
      assert forall i :: 1 <= i < |s| ==> s[i] == s[1..][i - 1];
    }
  }

  lemma {:induction false} TrimEndNonEmpty(s: string)
    requires |s| > 0 && !IsJsSpace(s[0])
    ensures TrimEnd(s) != ""
  {
    if IsJsSpace(s[|s| - 1]) {
      TrimEndNonEmpty(s[..|s| - 1]);
    }
  }

  /** `s.trim() === ''` holds exactly of the strings made of white space. */
  lemma TrimIsEmptyIffBlank(s: string)
    ensures Trim(s) == "" <==> IsBlank(s)
  {
    TrimStartEmpty(s);
    TrimStartShape(s);
    var t := TrimStart(s);
    if t != "" {
      TrimEndNonEmpty(t);
    }
  }
}
