/** Values and string operations that the whole application leans on:
    optional values, JavaScript truthiness of strings, `String.prototype.trim`,
    `startsWith`, and the `id.split(':')[1]` idiom used to peel the table
    name off a record key such as `posts:abc`. */
module Common {

  datatype Option<+T> = None | Some(value: T)

  /** The outcome of something that can throw: `Err` carries the error message. */
  datatype Result<+T> = Ok(value: T) | Err(message: string)

  /** A JavaScript string value is truthy iff it is present and not empty. */
  predicate Truthy(s: Option<string>) {
    s.Some? && s.value != ""
  }

  /** `m || d` on a message string. */
  function OrDefault(m: string, d: string): (r: string)
    ensures m != "" ==> r == m
    ensures m == "" ==> r == d
  {
    if m != "" then m else d
  }

  /** `c0 || c1 || ... || fallback`: the value of the first truthy candidate. */
  function FirstTruthy(candidates: seq<Option<string>>, fallback: string): (r: string)
    ensures (forall i :: 0 <= i < |candidates| ==> !Truthy(candidates[i])) ==> r == fallback
    ensures forall i :: 0 <= i < |candidates| && Truthy(candidates[i]) ==>
              (forall j :: 0 <= j < i ==> !Truthy(candidates[j])) ==> r == candidates[i].value
  {
    if candidates == [] then fallback
    else if Truthy(candidates[0]) then candidates[0].value
    else FirstTruthy(candidates[1..], fallback)
  }

  /** The characters `String.prototype.trim` removes: ECMAScript WhiteSpace
      (TAB, VT, FF, SP, NBSP, ZWNBSP and the other space separators) and
      LineTerminator (LF, CR, LS, PS). */
  predicate IsJsWhitespace(c: char) {
    || c == '\t' || c == '\n' || c == '\U{000B}' || c == '\U{000C}' || c == '\r'
    || c == ' ' || c == '\U{00A0}' || c == '\U{1680}'
    || ('\U{2000}' <= c <= '\U{200A}')
    || c == '\U{2028}' || c == '\U{2029}' || c == '\U{202F}' || c == '\U{205F}'
    || c == '\U{3000}' || c == '\U{FEFF}'
  }

  predicate IsBlank(s: string) {
    forall i :: 0 <= i < |s| ==> IsJsWhitespace(s[i])
  }

  /** `s` without its leading whitespace. */
  function TrimStart(s: string): (r: string)
    ensures |r| <= |s| && r == s[|s| - |r|..]
    ensures forall i :: 0 <= i < |s| - |r| ==> IsJsWhitespace(s[i])
    ensures r != [] ==> !IsJsWhitespace(r[0])
  {
    if s != [] && IsJsWhitespace(s[0]) then TrimStart(s[1..]) else s
  }

  /** `s` without its trailing whitespace. */
  function TrimEnd(s: string): (r: string)
    ensures |r| <= |s| && r == s[..|r|]
    ensures forall i :: |r| <= i < |s| ==> IsJsWhitespace(s[i])
    ensures r != [] ==> !IsJsWhitespace(r[|r| - 1])
  {
    if s != [] && IsJsWhitespace(s[|s| - 1]) then TrimEnd(s[..|s| - 1]) else s
  }

  /** `s.trim()`: the slice of `s` between its leading and trailing whitespace. */
  function Trim(s: string): (r: string)
    ensures var k := |s| - |TrimStart(s)|;
      && k + |r| <= |s| && r == s[k..k + |r|]
      && (forall i :: 0 <= i < k ==> IsJsWhitespace(s[i]))
      && (forall i :: k + |r| <= i < |s| ==> IsJsWhitespace(s[i]))
    ensures r != [] ==> !IsJsWhitespace(r[0]) && !IsJsWhitespace(r[|r| - 1])
  {
    TrimEnd(TrimStart(s))
  }

  /** A trimmed string is empty exactly when the input was all whitespace. */
  lemma TrimEmptyIffBlank(s: string)
    ensures Trim(s) == "" <==> IsBlank(s)
  {
  }

  lemma TrimIdempotent(s: string)
    ensures Trim(Trim(s)) == Trim(s)
  {
  }

  predicate StartsWith(s: string, prefix: string) {
    |prefix| <= |s| && s[..|prefix|] == prefix
  }

  /** The text of `s` before its first colon (all of `s` when it has none). */
  function UpToColon(s: string): (r: string)
    ensures |r| <= |s| && r == s[..|r|] && ':' !in r
    ensures |r| < |s| ==> s[|r|] == ':'
  {
    if s == [] || s[0] == ':' then [] else [s[0]] + UpToColon(s[1..])
  }

  /** `s.split(':')[1]`: the text between the first colon and the next colon
      (or the end); `None` stands for `undefined`, when `s` has no colon. */
  function SplitSecond(s: string): (r: Option<string>)
    ensures r.None? <==> ':' !in s
    ensures r.Some? ==>
      var k := |UpToColon(s)| + 1;
      && k + |r.value| <= |s| && r.value == s[k..k + |r.value|]
      && ':' !in r.value
      && (k + |r.value| < |s| ==> s[k + |r.value|] == ':')
  {
    var head := UpToColon(s);
    if |head| == |s| then None else Some(UpToColon(s[|head| + 1..]))
  }

  lemma {:induction false} UpToColonOfKey(table: string, rest: string)
    requires ':' !in table
    ensures UpToColon(table + ":" + rest) == table
  {
    if table != [] {
      assert (table + ":" + rest)[1..] == table[1..] + ":" + rest;
      UpToColonOfKey(table[1..], rest);
    }
  }

  /** For a record key `table:id`, with or without trailing `:...` text,
      the second `split(':')` element is `id`. */
  lemma SplitSecondOfKey(table: string, id: string, tail: string)
    requires ':' !in table && ':' !in id
    requires tail == "" || tail[0] == ':'
    ensures SplitSecond(table + ":" + id + tail) == Some(id)
  {
    var s := table + ":" + id + tail;
    assert s == table + ":" + (id + tail);
    UpToColonOfKey(table, id + tail);
    assert s[|table| + 1..] == id + tail;
    if tail == "" {
      assert UpToColon(id) == id;
    } else {
      assert id + tail == id + ":" + tail[1..];
      UpToColonOfKey(id, tail[1..]);
    }
  }

  /** `s.split(':')[1] || s`: the identifier after the table prefix, or the
      whole string when there is no non-empty second segment. */
  function CleanId(s: string): (r: string)
    ensures ':' !in s ==> r == s
    ensures SplitSecond(s).Some? && SplitSecond(s).value != "" ==> r == SplitSecond(s).value
    ensures SplitSecond(s) == Some("") ==> r == s
  {
    match SplitSecond(s)
    case Some(seg) => if seg != "" then seg else s
    case None => s
  }

  lemma CleanIdOfKey(table: string, id: string)
    requires ':' !in table && ':' !in id && id != ""
    ensures CleanId(table + ":" + id) == id
  {
    SplitSecondOfKey(table, id, "");
    assert table + ":" + id + "" == table + ":" + id;
  }

  /** `a` is `b` with some elements left out, the rest in their order. */
  predicate IsSubsequence<T(==)>(a: seq<T>, b: seq<T>)
    decreases |b|
  {
    || a == []
    || (b != [] && ((a[0] == b[0] && IsSubsequence(a[1..], b[1..])) || IsSubsequence(a, b[1..])))
  }

  lemma {:induction false} SubsequenceElements<T>(a: seq<T>, b: seq<T>)
    requires IsSubsequence(a, b)
    ensures |a| <= |b|
    ensures forall x :: x in a ==> x in b
    decreases |b|
  {
    if a != [] {
      if a[0] == b[0] && IsSubsequence(a[1..], b[1..]) {
        SubsequenceElements(a[1..], b[1..]);
        assert forall x :: x in a ==> x == a[0] || x in a[1..];
      } else {
        SubsequenceElements(a, b[1..]);
      }
    }
  }
}
