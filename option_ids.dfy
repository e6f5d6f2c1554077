/** The two readings of a namespaced option id `key[sub]` in OptionForm.php:
    the wildcard test `Str::is('*[*]', $id)` that `handle` uses to skip an item, and
    the regular expression `/(.*)\[(.*)\]/` that `render` uses to split it. */
module OptionIds {
  import opened Values

  /** The position of the last occurrence of `c` in `s`, if any. */
  function LastIndexOf(s: string, c: char): (r: Option<nat>)
    ensures r.None? <==> c !in s
    ensures r.Some? ==> r.value < |s| && s[r.value] == c && c !in s[r.value + 1..]
  {
    if |s| == 0 then None
    else if s[|s| - 1] == c then Some(|s| - 1)
    else
      var r := LastIndexOf(s[..|s| - 1], c);
      assert s == s[..|s| - 1] + [s[|s| - 1]];
      r
  }

  /** `Str::is('*[*]', $id)`: the id ends with `]` and has a `[` somewhere before that. */
  predicate IsNamespaced(id: string)
  {
    |id| >= 2 && id[|id| - 1] == ']' && '[' in id[..|id| - 1]
  }

  /** Some `[` stands before some `]` in `id`: what it takes for `/(.*)\[(.*)\]/` to match. */
  ghost predicate HasBracketPair(id: string)
  {
    exists b, e :: 0 <= b < e < |id| && id[b] == '[' && id[e] == ']'
  }

  /** The groups `$matches[1]` and `$matches[2]` of the greedy, unanchored match of
      `/(.*)\[(.*)\]/` against `id`: the prefix before the last `[` that precedes the last
      `]`, and what stands between the two. Text after that `]` is not part of either. */
  function SplitNamespaced(id: string): (r: Option<(string, string)>)
    ensures r.None? <==> !HasBracketPair(id)
    ensures r.Some? ==>
      var n := |r.value.0| + |r.value.1| + 2;
      n <= |id| && id == r.value.0 + "[" + r.value.1 + "]" + id[n..] &&
      '[' !in r.value.1 && ']' !in id[n..]
  {
    match LastIndexOf(id, ']')
    case None => None
    case Some(e) =>
      match LastIndexOf(id[..e], '[')
      case None =>
        None
      case Some(b) =>
        var prefix, sub := id[..b], id[b + 1..e];
        assert id == prefix + "[" + sub + "]" + id[e + 1..];
        assert sub == id[..e][b + 1..];
        Some((prefix, sub))
  }

  /** Every id that `handle` skips is also split by `render`, into the part before the
      bracket and the part inside it. */
  lemma NamespacedIsSplit(id: string)
    requires IsNamespaced(id)
    ensures SplitNamespaced(id).Some?
    ensures var (prefix, sub) := SplitNamespaced(id).value;
      id == prefix + "[" + sub + "]"
  {
    var b :| 0 <= b < |id| - 1 && id[..|id| - 1][b] == '[';
    assert id[b] == '[' && id[|id| - 1] == ']';
    var (prefix, sub) := SplitNamespaced(id).value;
    if |prefix| + |sub| + 2 < |id| {
      assert false;
    }
  }

  /** Splitting undoes writing an id as `prefix[sub]`, for any prefix and any `sub`
      without `[` (a `]` inside `sub` is kept: `a[b]c]` splits into `a` and `b]c`). */
  lemma SplitJoin(prefix: string, sub: string)
    requires '[' !in sub
    ensures SplitNamespaced(prefix + "[" + sub + "]") == Some((prefix, sub))
  {
    var id := prefix + "[" + sub + "]";
    var e, b := |id| - 1, |prefix|;
    assert LastIndexOf(id, ']') == Some(e);
    var head := id[..e];
    assert head == prefix + "[" + sub;
    var r := LastIndexOf(head, '[');
    assert head[b] == '[';
    assert r.Some?;
    assert id[..b] == prefix && id[b + 1..e] == sub;
  }

  /** The converse fails: `render` splits an id such as `a[b]c`, which `handle` does not skip. */
  lemma SplitIsNotNamespaced()
    ensures !IsNamespaced("a[b]c") && SplitNamespaced("a[b]c") == Some(("a", "b"))
  {
    assert LastIndexOf("a[b]c", ']') == Some(3);
    assert "a[b]c"[..3] == "a[b";
    assert LastIndexOf("a[b", '[') == Some(1);
    assert "a[b]c"[..1] == "a" && "a[b]c"[2..3] == "b";
  }
}
