/** `secure_prompt`: removes the template braces `{` and `}` from every string
    value of a prompt's variables, so that data cannot open a placeholder in
    the prompt template. */
module Security {

  /** A prompt variable: a string, or any other value (a number, a date, None). */
  datatype Value<T> = Str(s: string) | Other(v: T)

  /** `s.replace(c, "")` for a single character `c`. */
  function RemoveAll(s: string, c: char): (r: string)
    ensures |r| <= |s|
    ensures c !in r
    ensures forall d :: d != c ==> multiset(r)[d] == multiset(s)[d]
  {
    if s == [] then []
    else
      assert s == [s[0]] + s[1..];
      if s[0] == c then RemoveAll(s[1..], c)
      else [s[0]] + RemoveAll(s[1..], c)
  }

  /** `v.replace("{", "").replace("}", "")`: no brace is left, every other
      character is kept as often as it occurs. */
  function StripBraces(s: string): (r: string)
    ensures '{' !in r && '}' !in r
    ensures |r| <= |s|
    ensures forall d :: d != '{' && d != '}' ==> multiset(r)[d] == multiset(s)[d]
  {
    var r := RemoveAll(RemoveAll(s, '{'), '}');
    assert multiset(r)['{'] == 0;
    r
  }

  /** `a` is obtained from `b` by deleting characters. */
  predicate IsSubsequence(a: string, b: string)
    decreases |b|
  {
    a == [] || (b != [] && if a[0] == b[0] then IsSubsequence(a[1..], b[1..]) else IsSubsequence(a, b[1..]))
  }

  lemma {:induction false} SubsequenceDropHead(a: string, b: string)
    requires a != [] && IsSubsequence(a, b)
    ensures IsSubsequence(a[1..], b)
    decreases |b|
  {
    if a[1..] != [] {
      if a[0] == b[0] {
        SubsequenceTail(a[1..], b);
      } else {
        SubsequenceDropHead(a, b[1..]);
        SubsequenceTail(a[1..], b);
      }
    }
  }

  lemma {:induction false} SubsequenceTail(a: string, b: string)
    requires b != [] && IsSubsequence(a, b[1..])
    ensures IsSubsequence(a, b)
    decreases |b|, 1
  {
    if a != [] && a[0] == b[0] {
      SubsequenceDropHead(a, b[1..]);
    }
  }

  lemma {:induction false} SubsequenceTransitive(a: string, b: string, c: string)
    requires IsSubsequence(a, b) && IsSubsequence(b, c)
    ensures IsSubsequence(a, c)
    decreases |c|
  {
    if a != [] {
      if b[0] == c[0] {
        if a[0] == b[0] {
          SubsequenceTransitive(a[1..], b[1..], c[1..]);
        } else {
          SubsequenceTransitive(a, b[1..], c[1..]);
          SubsequenceTail(a, c);
        }
      } else {
        SubsequenceTransitive(a, b, c[1..]);
        SubsequenceTail(a, c);
      }
    }
  }

  lemma {:induction false} RemoveAllIsSubsequence(s: string, c: char)
    ensures IsSubsequence(RemoveAll(s, c), s)
  {
    if s != [] {
      RemoveAllIsSubsequence(s[1..], c);
      if s[0] == c {
        SubsequenceTail(RemoveAll(s, c), s);
      } else {
        assert RemoveAll(s, c)[1..] == RemoveAll(s[1..], c);
      }
    }
  }

  /** The sanitised string is the input with characters deleted. */
  lemma StripBracesIsSubsequence(s: string)
    ensures IsSubsequence(StripBraces(s), s)
  {
    RemoveAllIsSubsequence(s, '{');
    RemoveAllIsSubsequence(RemoveAll(s, '{'), '}');
    SubsequenceTransitive(StripBraces(s), RemoveAll(s, '{'), s);
  }

  lemma {:induction false} RemoveAllAbsent(s: string, c: char)
    requires c !in s
    ensures RemoveAll(s, c) == s
  {
    if s != [] {
      RemoveAllAbsent(s[1..], c);
    }
  }

  /** A string without braces is returned unchanged. */
  lemma StripBracesNoBraces(s: string)
    requires '{' !in s && '}' !in s
    ensures StripBraces(s) == s
  {
    RemoveAllAbsent(s, '{');
    RemoveAllAbsent(s, '}');
  }

  lemma StripBracesIdempotent(s: string)
    ensures StripBraces(StripBraces(s)) == StripBraces(s)
  {
    StripBracesNoBraces(StripBraces(s));
  }

  function SanitizeValue<T>(v: Value<T>): Value<T> {
    match v
    case Str(s) => Str(StripBraces(s))
    case Other(_) => v
  }

  /** The dictionary `secure_prompt` returns. */
  function Sanitized<K, T>(data: map<K, Value<T>>): (r: map<K, Value<T>>)
    ensures r.Keys == data.Keys
    ensures forall k :: k in r && r[k].Str? ==> '{' !in r[k].s && '}' !in r[k].s
  {
    map k | k in data :: SanitizeValue(data[k])
  }

  /** Same keys; string values lose their braces and keep everything else;
      other values pass through. */
  lemma SanitizedShape<K, T>(data: map<K, Value<T>>)
    ensures Sanitized(data).Keys == data.Keys
    ensures forall k :: k in data && data[k].Str? ==>
      var r := Sanitized(data)[k];
      r.Str? && '{' !in r.s && '}' !in r.s && IsSubsequence(r.s, data[k].s)
      && (forall d :: d != '{' && d != '}' ==> multiset(r.s)[d] == multiset(data[k].s)[d])
    ensures forall k :: k in data && data[k].Other? ==> Sanitized(data)[k] == data[k]
  {
    forall k | k in data && data[k].Str? {
      StripBracesIsSubsequence(data[k].s);
    }
  }

  lemma SanitizedIdempotent<K, T>(data: map<K, Value<T>>)
    ensures Sanitized(Sanitized(data)) == Sanitized(data)
  {
    forall k | k in data && data[k].Str? {
      StripBracesIdempotent(data[k].s);
    }
  }

  /** `secure_prompt`: fills a fresh dictionary key by key. */
  method SecurePrompt<K, T>(data: map<K, Value<T>>) returns (sanitized: map<K, Value<T>>)
    ensures sanitized == Sanitized(data)
  {
    sanitized := map[];
    var todo := data.Keys;
    while todo != {}
      invariant todo <= data.Keys
      invariant sanitized.Keys == data.Keys - todo
      invariant forall k :: k in sanitized ==> sanitized[k] == SanitizeValue(data[k])
      decreases todo
    {
      var k :| k in todo;
      var v := data[k];
      if v.Str? {
        sanitized := sanitized[k := Str(StripBraces(v.s))];
      } else {
        sanitized := sanitized[k := v];
      }
      todo := todo - {k};
    }
  }
}
