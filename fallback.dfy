/**
 * Turning the helper's frame body into the server configuration: a strict
 * UTF-8 + JSON decode, then a Latin-1 + JSON decode, then the degraded recovery
 * of `_extract_mcp_servers_from_truncated_json`, which searches the text for
 * three regular expressions and rebuilds a one-server configuration from the
 * URL and the Bearer credential it finds. Also the readers of that
 * configuration used by a connection attempt (`_extract_server_url`).
 *
 * The three patterns are written out as matchers at one start position;
 * `re.search` is `Search`, the leftmost start position where the matcher succeeds.
 */
module Fallback {
  import opened Wrappers
  import opened Text
  import opened Json
  import opened Framing

  const ExtractedServerName: string := "extracted_server"

  /** `\s*` from index `i`: the first index at or after `i` that is not whitespace. */
  function SkipSpaces(t: string, i: nat): (j: nat)
    requires i <= |t|
    ensures i <= j <= |t|
    ensures forall k :: i <= k < j ==> IsSpace(t[k])
    ensures j < |t| ==> !IsSpace(t[j])
    decreases |t| - i
  {
    if i == |t| || !IsSpace(t[i]) then i else SkipSpaces(t, i + 1)
  }

  /** `([^"]+)"` from index `g`: the non-empty text up to the next double quote. */
  function QuotedRun(t: string, g: nat): (r: Option<string>)
    ensures r.Some? ==> g < |t| && r.value != [] && '"' !in r.value
    ensures r.Some? ==> g + |r.value| < |t| && t[g..g + |r.value|] == r.value && t[g + |r.value|] == '"'
    ensures r.None? ==> g >= |t| || t[g] == '"' || forall k :: g <= k < |t| ==> t[k] != '"'
  {
    match FindFrom(t, "\"", g)
    case Some(e) =>
      if e > g then
        assert forall k :: g <= k < e ==> !OccursAt(t, "\"", k);
        assert forall k :: g <= k < e ==> t[k] != '"' by {
          forall k | g <= k < e ensures t[k] != '"' {
            assert !OccursAt(t, "\"", k);
            assert t[k..k + 1] == [t[k]];
          }
        }
        assert t[e..e + 1] == "\"";
        Some(t[g..e])
      else
        assert t[g..g + 1] == "\"";
        None
    case None =>
      assert forall k :: g <= k < |t| ==> t[k] != '"' by {
        forall k | g <= k < |t| ensures t[k] != '"' {
          assert !OccursAt(t, "\"", k);
          assert t[k..k + 1] == [t[k]];
        }
      }
      None
  }

  /** `v` stands in `t` between a double quote at `g - 1` and one at `g + |v|`. */
  predicate QuotedAt(t: string, g: nat, v: string) {
    0 < g && g + |v| < |t| && t[g - 1] == '"' && t[g..g + |v|] == v && t[g + |v|] == '"'
  }

  /** A non-empty quote-free run closed by a double quote is what `QuotedRun` captures. */
  lemma QuotedRunFinds(t: string, g: nat, v: string)
    requires g + |v| < |t| && t[g..g + |v|] == v && t[g + |v|] == '"'
    requires v != [] && '"' !in v
    ensures QuotedRun(t, g) == Some(v)
  {
    assert t[g] == v[0];
    forall k | g <= k < g + |v| ensures t[k] != '"' {
      assert t[k] == v[k - g];
    }
  }

  /** `\s*` skips exactly a run of whitespace followed by a non-space or the end. */
  lemma SkipSpacesOver(t: string, i: nat, n: nat)
    requires i + n <= |t|
    requires forall k :: i <= k < i + n ==> IsSpace(t[k])
    requires i + n == |t| || !IsSpace(t[i + n])
    ensures SkipSpaces(t, i) == i + n
  {
  }

  /** `"key"\s*:\s*` at index `i`: the index just after it. */
  function AfterKey(t: string, i: nat, key: string): (r: Option<nat>)
    ensures r.Some? ==> OccursAt(t, "\"" + key + "\"", i) && i + |key| + 2 < r.value <= |t|
  {
    var quoted := "\"" + key + "\"";
    if !OccursAt(t, quoted, i) then None
    else
      var j := SkipSpaces(t, i + |quoted|);
      if j < |t| && t[j] == ':' then Some(SkipSpaces(t, j + 1)) else None
  }

  /** The non-empty quote-free text of `"key"\s*:\s*"([^"]+)"` when that matches at `i`. */
  function QuotedValue(t: string, i: nat, key: string): (r: Option<string>)
    ensures r.Some? ==> r.value != [] && '"' !in r.value
    ensures r.Some? ==> OccursAt(t, "\"" + key + "\"", i) && exists g :: i < g && QuotedAt(t, g, r.value)
  {
    match AfterKey(t, i, key)
    case Some(k) =>
      if k < |t| && t[k] == '"' then
        var v := QuotedRun(t, k + 1);
        if v.Some? then assert QuotedAt(t, k + 1, v.value); v else None
      else None
    case None => None
  }

  /** A URL the pattern accepts: `http://` or `https://` followed by at least one character. */
  predicate IsHttpUrl(u: string) {
    (StartsWith(u, "http://") && |u| > 7) || (StartsWith(u, "https://") && |u| > 8)
  }

  /** A credential the pattern accepts: `Bearer`, whitespace, and at least one more character. */
  predicate IsBearer(a: string) {
    StartsWith(a, "Bearer") && |a| >= 8 && IsSpace(a[6])
  }

  /** The group of `"url"\s*:\s*"(https?://[^"]+)"` when the pattern matches at `i`. */
  function UrlAt(t: string, i: nat): (r: Option<string>)
    ensures r.Some? ==> IsHttpUrl(r.value) && '"' !in r.value
    ensures r.Some? ==> OccursAt(t, "\"url\"", i) && exists g :: i < g && QuotedAt(t, g, r.value)
  {
    assert "\"" + "url" + "\"" == "\"url\"";
    match QuotedValue(t, i, "url")
    case Some(g) => if IsHttpUrl(g) then Some(g) else None
    case None => None
  }

  /** The group of `"Authorization"\s*:\s*"(Bearer\s+[^"]+)"` when the pattern matches at `i`. */
  function AuthAt(t: string, i: nat): (r: Option<string>)
    ensures r.Some? ==> IsBearer(r.value) && '"' !in r.value
    ensures r.Some? ==> OccursAt(t, "\"Authorization\"", i) && exists g :: i < g && QuotedAt(t, g, r.value)
  {
    assert "\"" + "Authorization" + "\"" == "\"Authorization\"";
    match QuotedValue(t, i, "Authorization")
    case Some(g) => if IsBearer(g) then Some(g) else None
    case None => None
  }

  /** `\{\s*"([^"]+)"` from index `k`, the rest of the server-name pattern after its key. */
  function NameAfterBrace(t: string, k: nat): (r: Option<string>)
    ensures r.Some? ==> r.value != [] && '"' !in r.value && exists g :: k < g && QuotedAt(t, g, r.value)
  {
    if k < |t| && t[k] == '{' then
      var q := SkipSpaces(t, k + 1);
      if q < |t| && t[q] == '"' then
        var v := QuotedRun(t, q + 1);
        if v.Some? then assert QuotedAt(t, q + 1, v.value); v else None
      else None
    else None
  }

  /** The group of `"mcpServers"\s*:\s*\{\s*"([^"]+)"` when the pattern matches at `i`. */
  function ServerNameAt(t: string, i: nat): (r: Option<string>)
    ensures r.Some? ==> r.value != [] && '"' !in r.value
    ensures r.Some? ==> OccursAt(t, "\"mcpServers\"", i) && exists g :: i < g && QuotedAt(t, g, r.value)
  {
    assert "\"" + "mcpServers" + "\"" == "\"mcpServers\"";
    match AfterKey(t, i, "mcpServers")
    case Some(k) => NameAfterBrace(t, k)
    case None => None
  }

  /** A run of whitespace only (what `\s*` may skip). */
  predicate AllSpace(s: string) {
    forall k :: 0 <= k < |s| ==> IsSpace(s[k])
  }

  /** `"key"`, optional whitespace, a colon and optional whitespace are matched up to what follows them. */
  lemma AfterKeyFinds(pre: string, key: string, quoted: string, sp1: string, sp2: string, rest: string)
    requires quoted == "\"" + key + "\""
    requires AllSpace(sp1) && AllSpace(sp2)
    requires rest != [] && !IsSpace(rest[0])
    ensures AfterKey(pre + quoted + sp1 + ":" + sp2 + rest, |pre|, key) == Some(|pre| + |key| + 3 + |sp1| + |sp2|)
  {
    var head := pre + quoted;
    assert head[|pre|..] == quoted;
    var t1 := head + sp1;
    var t2 := t1 + ":";
    var t3 := t2 + sp2;
    var t := t3 + rest;
    OccursInAppend(head, sp1, quoted, |pre|);
    OccursInAppend(t1, ":", quoted, |pre|);
    OccursInAppend(t2, sp2, quoted, |pre|);
    OccursInAppend(t3, rest, quoted, |pre|);
    forall k | |head| <= k < |t1| ensures IsSpace(t[k]) {
      assert t[k] == sp1[k - |head|];
    }
    assert t[|t1|] == ':';
    forall k | |t2| <= k < |t3| ensures IsSpace(t[k]) {
      assert t[k] == sp2[k - |t2|];
    }
    assert t[|t3|] == rest[0];
    AfterKeyOver(t, |pre|, key, |sp1|, |sp2|);
  }

  /** An occurrence stays an occurrence when more text is appended. */
  lemma OccursInAppend(a: string, b: string, p: string, i: nat)
    requires OccursAt(a, p, i)
    ensures OccursAt(a + b, p, i)
  {
    assert (a + b)[i..i + |p|] == a[i..i + |p|];
  }

  /** The index form of `AfterKeyFinds`: the quoted key, `n1` spaces, a colon, `n2` spaces, then a non-space. */
  lemma AfterKeyOver(t: string, i: nat, key: string, n1: nat, n2: nat)
    requires OccursAt(t, "\"" + key + "\"", i)
    requires i + |key| + 2 + n1 + 1 + n2 < |t|
    requires forall k :: i + |key| + 2 <= k < i + |key| + 2 + n1 ==> IsSpace(t[k])
    requires t[i + |key| + 2 + n1] == ':'
    requires forall k :: i + |key| + 3 + n1 <= k < i + |key| + 3 + n1 + n2 ==> IsSpace(t[k])
    requires !IsSpace(t[i + |key| + 3 + n1 + n2])
    ensures AfterKey(t, i, key) == Some(i + |key| + 3 + n1 + n2)
  {
    SkipSpacesOver(t, i + |key| + 2, n1);
    SkipSpacesOver(t, i + |key| + 3 + n1, n2);
  }

  /** A quoted value after `"key":` in the text is the value captured there. */
  lemma QuotedValueFinds(pre: string, key: string, quoted: string, sp1: string, sp2: string, v: string, post: string)
    requires quoted == "\"" + key + "\""
    requires AllSpace(sp1) && AllSpace(sp2)
    requires v != [] && '"' !in v
    ensures QuotedValue(pre + quoted + sp1 + ":" + sp2 + "\"" + v + "\"" + post, |pre|, key) == Some(v)
  {
    var head := pre + quoted + sp1 + ":" + sp2;
    var t := head + "\"" + v + "\"" + post;
    assert |head| == |pre| + |key| + 3 + |sp1| + |sp2|;
    ValueKeyLayout(pre, key, quoted, sp1, sp2, v, post);
    assert AfterKey(t, |pre|, key) == Some(|head|);
    ValueBodyLayout(head, v, post, t);
    QuotedValueAt(t, |pre|, key, |head|, v);
  }

  /** The index form of `QuotedValueFinds`: past `"key":`, a quoted non-empty quote-free value is captured. */
  lemma QuotedValueAt(t: string, i: nat, key: string, j: nat, v: string)
    requires AfterKey(t, i, key) == Some(j)
    requires j + 1 + |v| < |t| && t[j] == '"' && t[j + 1..j + 1 + |v|] == v && t[j + 1 + |v|] == '"'
    requires v != [] && '"' !in v
    ensures QuotedValue(t, i, key) == Some(v)
  {
    QuotedRunFinds(t, j + 1, v);
    QuotedValueIs(t, i, key, j);
  }

  /** `"key":` in the fragment is matched up to the opening quote of the value. */
  lemma ValueKeyLayout(pre: string, key: string, quoted: string, sp1: string, sp2: string, v: string, post: string)
    requires quoted == "\"" + key + "\""
    requires AllSpace(sp1) && AllSpace(sp2)
    ensures AfterKey(pre + quoted + sp1 + ":" + sp2 + "\"" + v + "\"" + post, |pre|, key)
            == Some(|pre| + |key| + 3 + |sp1| + |sp2|)
  {
    var t4 := pre + quoted + sp1 + ":" + sp2 + "\"";
    var t5 := t4 + v;
    var t6 := t5 + "\"";
    var j := |pre| + |key| + 3 + |sp1| + |sp2|;
    AfterKeyFinds(pre, key, quoted, sp1, sp2, "\"");
    assert AfterKey(t4, |pre|, key) == Some(j);
    AfterKeyExtends(t4, v, |pre|, key, j);
    AfterKeyExtends(t5, "\"", |pre|, key, j);
    AfterKeyExtends(t6, post, |pre|, key, j);
  }

  /** The quotes and the value stand where the fragment puts them. */
  lemma ValueBodyLayout(head: string, v: string, post: string, t: string)
    requires t == head + "\"" + v + "\"" + post
    ensures |head| + 1 + |v| < |t| && t[|head|] == '"'
    ensures t[|head| + 1..|head| + 1 + |v|] == v && t[|head| + 1 + |v|] == '"'
  {
    SliceMid(head + "\"", v, "\"", post);
    assert t[|head|] == '"' && t[|head| + 1 + |v|] == '"';
  }

  /** Past `"key":` and its whitespace, an opening quote leaves the value to `([^"]+)"`. */
  lemma QuotedValueIs(t: string, i: nat, key: string, j: nat)
    requires AfterKey(t, i, key) == Some(j) && j < |t| && t[j] == '"'
    ensures QuotedValue(t, i, key) == QuotedRun(t, j + 1)
  {
  }

  /** The text `v` placed between `x` and `y + z` is the slice at `|x|`. */
  lemma SliceMid(x: string, v: string, y: string, z: string)
    ensures |x| + |v| <= |x + v + y + z| && (x + v + y + z)[|x|..|x| + |v|] == v
  {
    var t := x + v + y + z;
    assert forall k :: |x| <= k < |x| + |v| ==> t[k] == v[k - |x|];
  }

  /** `\s*` stopping inside `s` stops at the same place when more text is appended. */
  lemma SkipSpacesExtends(s: string, b: string, i: nat)
    requires i <= |s| && SkipSpaces(s, i) < |s|
    ensures SkipSpaces(s + b, i) == SkipSpaces(s, i)
  {
    var j := SkipSpaces(s, i);
    var t := s + b;
    forall k | i <= k < j ensures IsSpace(t[k]) {
      assert t[k] == s[k];
    }
    assert t[j] == s[j];
    SkipSpacesOver(t, i, j - i);
  }

  /** `"key"\s*:\s*` matched up to a character of `s` is matched alike when more text is appended. */
  lemma AfterKeyExtends(s: string, b: string, i: nat, key: string, j: nat)
    requires AfterKey(s, i, key) == Some(j) && j < |s|
    ensures AfterKey(s + b, i, key) == Some(j)
  {
    var quoted := "\"" + key + "\"";
    OccursInAppend(s, b, quoted, i);
    var c := SkipSpaces(s, i + |quoted|);
    SkipSpacesExtends(s, b, i + |quoted|);
    assert (s + b)[c] == s[c];
    SkipSpacesExtends(s, b, c + 1);
  }


  /**
   * A `"url"` member whose value is an `http` or `https` URL is matched where
   * it stands, so `re.search` finds a URL in any text that contains one.
   */
  lemma UrlAtFinds(pre: string, sp1: string, sp2: string, u: string, post: string)
    requires AllSpace(sp1) && AllSpace(sp2)
    requires IsHttpUrl(u) && '"' !in u
    ensures var t := pre + "\"url\"" + sp1 + ":" + sp2 + "\"" + u + "\"" + post;
            UrlAt(t, |pre|) == Some(u) && Search(t, UrlAt, 0).Some?
  {
    var t := pre + "\"url\"" + sp1 + ":" + sp2 + "\"" + u + "\"" + post;
    QuotedValueFinds(pre, "url", "\"url\"", sp1, sp2, u, post);
    assert UrlAt(t, |pre|) == Some(u);
  }

  /**
   * An `"Authorization"` member whose value is a Bearer credential is matched
   * where it stands, so `re.search` finds a credential in any text that contains one.
   */
  lemma AuthAtFinds(pre: string, sp1: string, sp2: string, a: string, post: string)
    requires AllSpace(sp1) && AllSpace(sp2)
    requires IsBearer(a) && '"' !in a
    ensures var t := pre + "\"Authorization\"" + sp1 + ":" + sp2 + "\"" + a + "\"" + post;
            AuthAt(t, |pre|) == Some(a) && Search(t, AuthAt, 0).Some?
  {
    var t := pre + "\"Authorization\"" + sp1 + ":" + sp2 + "\"" + a + "\"" + post;
    QuotedValueFinds(pre, "Authorization", "\"Authorization\"", sp1, sp2, a, post);
    assert AuthAt(t, |pre|) == Some(a);
  }

  /** The first key of an `"mcpServers"` object in the text is the name matched there. */
  lemma ServerNameAtFinds(pre: string, sp1: string, sp2: string, sp3: string, name: string, post: string)
    requires AllSpace(sp1) && AllSpace(sp2) && AllSpace(sp3)
    requires name != [] && '"' !in name
    ensures var t := pre + "\"mcpServers\"" + sp1 + ":" + sp2 + "{" + sp3 + "\"" + name + "\"" + post;
            ServerNameAt(t, |pre|) == Some(name) && Search(t, ServerNameAt, 0).Some?
  {
    var t := pre + "\"mcpServers\"" + sp1 + ":" + sp2 + "{" + sp3 + "\"" + name + "\"" + post;
    var head := pre + "\"mcpServers\"" + sp1 + ":" + sp2;
    ServerKeyLayout(pre, sp1, sp2, sp3, name, post);
    ServerBodyLayout(head, sp3, name, post, t);
    ServerNameAfter(t, |pre|, |head|, |sp3|, name);
  }

  /** `"mcpServers":` in the fragment is matched up to the brace. */
  lemma ServerKeyLayout(pre: string, sp1: string, sp2: string, sp3: string, name: string, post: string)
    requires AllSpace(sp1) && AllSpace(sp2)
    ensures AfterKey(pre + "\"mcpServers\"" + sp1 + ":" + sp2 + "{" + sp3 + "\"" + name + "\"" + post,
                     |pre|, "mcpServers")
            == Some(|pre| + 13 + |sp1| + |sp2|)
  {
    var t1 := pre + "\"mcpServers\"" + sp1 + ":" + sp2 + "{";
    var j := |pre| + 13 + |sp1| + |sp2|;
    AfterKeyFinds(pre, "mcpServers", "\"mcpServers\"", sp1, sp2, "{");
    assert AfterKey(t1, |pre|, "mcpServers") == Some(j);
    var t2 := t1 + sp3;
    var t3 := t2 + "\"";
    var t4 := t3 + name;
    var t5 := t4 + "\"";
    AfterKeyExtends(t1, sp3, |pre|, "mcpServers", j);
    AfterKeyExtends(t2, "\"", |pre|, "mcpServers", j);
    AfterKeyExtends(t3, name, |pre|, "mcpServers", j);
    AfterKeyExtends(t4, "\"", |pre|, "mcpServers", j);
    AfterKeyExtends(t5, post, |pre|, "mcpServers", j);
  }

  /** The brace, the whitespace after it and the quoted name stand where the fragment puts them. */
  lemma ServerBodyLayout(head: string, sp3: string, name: string, post: string, t: string)
    requires AllSpace(sp3)
    requires t == head + "{" + sp3 + "\"" + name + "\"" + post
    ensures |head| + |sp3| + 2 + |name| < |t|
    ensures t[|head|] == '{' && forall j :: |head| + 1 <= j < |head| + 1 + |sp3| ==> IsSpace(t[j])
    ensures t[|head| + 1 + |sp3|] == '"' && t[|head| + 2 + |sp3|..|head| + 2 + |sp3| + |name|] == name
    ensures t[|head| + 2 + |sp3| + |name|] == '"'
  {
    var m := head + "{" + sp3 + "\"";
    SliceMid(m, name, "\"", post);
    forall j | |head| + 1 <= j < |head| + 1 + |sp3| ensures IsSpace(t[j]) {
      assert t[j] == sp3[j - |head| - 1];
    }
    assert t[|head|] == '{';
    assert t[|m| - 1] == '"' && t[|m| + |name|] == '"';
  }

  /** The index form of `ServerNameAtFinds`: `{`, whitespace, then a quoted name after `"mcpServers":`. */
  lemma ServerNameAfter(t: string, i: nat, k: nat, n: nat, name: string)
    requires AfterKey(t, i, "mcpServers") == Some(k)
    requires k + n + 2 + |name| < |t|
    requires t[k] == '{' && forall j :: k + 1 <= j < k + 1 + n ==> IsSpace(t[j])
    requires t[k + 1 + n] == '"' && t[k + 2 + n..k + 2 + n + |name|] == name && t[k + 2 + n + |name|] == '"'
    requires name != [] && '"' !in name
    ensures ServerNameAt(t, i) == Some(name)
  {
    NameAfterBraceFinds(t, k, n, name);
    ServerNameAtIs(t, i, k);
  }

  /** Past its key, the server-name pattern reads the rest from the index after the key. */
  lemma ServerNameAtIs(t: string, i: nat, k: nat)
    requires AfterKey(t, i, "mcpServers") == Some(k)
    ensures ServerNameAt(t, i) == NameAfterBrace(t, k)
  {
  }

  /** `{`, a run of `n` whitespace characters and a quoted name are matched, with that name. */
  lemma NameAfterBraceFinds(t: string, k: nat, n: nat, name: string)
    requires k + n + 2 + |name| < |t|
    requires t[k] == '{' && forall j :: k + 1 <= j < k + 1 + n ==> IsSpace(t[j])
    requires t[k + 1 + n] == '"' && t[k + 2 + n..k + 2 + n + |name|] == name && t[k + 2 + n + |name|] == '"'
    requires name != [] && '"' !in name
    ensures NameAfterBrace(t, k) == Some(name)
  {
    SkipSpacesOver(t, k + 1, n);
    QuotedRunFinds(t, k + 2 + n, name);
  }

  /** `re.search`: the match at the leftmost start position `k >= from` where `at` succeeds. */
  function Search(t: string, at: (string, nat) -> Option<string>, from: nat): (r: Option<string>)
    ensures r.Some? ==> exists k :: from <= k <= |t| && at(t, k) == r
                          && forall j :: from <= j < k ==> at(t, j).None?
    ensures r.None? ==> forall k :: from <= k <= |t| ==> at(t, k).None?
    decreases |t| + 1 - from
  {
    if from > |t| then None
    else if at(t, from).Some? then at(t, from)
    else Search(t, at, from + 1)
  }

  /** The configuration rebuilt from the recovered fields (lines 376-387 of the source). */
  function Reconstructed(name: string, url: string, auth: string): Json {
    JObj([("mcpServers", JObj([(name, ServerEntry(url, auth))])),
          ("_extracted_from_truncated_json", JBool(true))])
  }

  /** The `mcpServers` object of the rebuilt configuration: one entry, named `name`. */
  lemma {:induction false} ReconstructedServers(name: string, url: string, auth: string)
    ensures var c := Reconstructed(name, url, auth);
            Lookup(c.fields, "mcpServers") == Some(JObj([(name, ServerEntry(url, auth))]))
    ensures MarkedExtracted(Reconstructed(name, url, auth))
  {
    var servers := JObj([(name, ServerEntry(url, auth))]);
    LookupPair("mcpServers", servers, "_extracted_from_truncated_json", JBool(true), "mcpServers");
    LookupPair("mcpServers", servers, "_extracted_from_truncated_json", JBool(true),
               "_extracted_from_truncated_json");
  }

  /** The single server entry of the rebuilt configuration. */
  function ServerEntry(url: string, auth: string): Json {
    JObj([("url", JStr(url)),
          ("headers", JObj([("Authorization", JStr(auth)),
                            ("Content-Type", JStr("application/json"))]))])
  }

  /** Reading the rebuilt configuration back gives the recovered URL. */
  lemma {:induction false} ReconstructedUrl(name: string, url: string, auth: string)
    ensures ServerUrl(Reconstructed(name, url, auth)) == Some(JStr(url))
  {
    ReconstructedServers(name, url, auth);
    var e := ServerEntry(url, auth);
    LookupSingle(name, e, name);
    LookupPair("url", JStr(url), "headers", e.fields[1].1, "url");
  }

  /** Reading the rebuilt configuration back gives the recovered credential. */
  lemma {:induction false} ReconstructedAuth(name: string, url: string, auth: string)
    ensures AuthHeader(Reconstructed(name, url, auth)) == Some(JStr(auth))
  {
    ReconstructedServers(name, url, auth);
    var e := ServerEntry(url, auth);
    var h := e.fields[1].1;
    LookupSingle(name, e, name);
    LookupPair("url", JStr(url), "headers", h, "headers");
    LookupPair("Authorization", JStr(auth), "Content-Type", JStr("application/json"), "Authorization");
  }

  /**
   * `next(iter(config['mcpServers'].values()))` when it is a non-empty object:
   * the members of the first server entry. An absent or empty `mcpServers`
   * gives `None`, and so does anything on which the `.get`, the `.values()`
   * or the entry's own `.get` would raise.
   */
  function FirstServer(config: Json): (e: Option<seq<(string, Json)>>)
    ensures e.Some? ==> config.JObj? && e.value != []
    ensures e.Some? ==>
      var servers := Lookup(config.fields, "mcpServers");
      && servers.Some? && servers.value.JObj? && servers.value.fields != []
      && Lookup(servers.value.fields, servers.value.fields[0].0) == Some(JObj(e.value))
    ensures config.JObj? && !Truthy(Get(config.fields, "mcpServers", JObj([]))) ==> e.None?
  {
    if !config.JObj? then None
    else
      var servers := Get(config.fields, "mcpServers", JObj([]));
      if !Truthy(servers) || !servers.JObj? then None
      else
        var first := Get(servers.fields, servers.fields[0].0, JNull);
        if !Truthy(first) || !first.JObj? then None else Some(first.fields)
  }

  /** A non-empty object as the value of the first `mcpServers` key is the first server entry. */
  lemma FirstServerFound(config: Json, servers: seq<(string, Json)>, entry: seq<(string, Json)>)
    requires config.JObj? && Lookup(config.fields, "mcpServers") == Some(JObj(servers))
    requires servers != [] && Lookup(servers, servers[0].0) == Some(JObj(entry)) && entry != []
    ensures FirstServer(config) == Some(entry)
  {
  }

  /**
   * `_extract_server_url`: the non-null `url` of the first server entry, and
   * `None` when there is no such entry or it has no non-null `url`.
   */
  function ServerUrl(config: Json): (r: Option<Json>)
    ensures r.Some? ==> r.value != JNull
    ensures r.Some? ==> FirstServer(config).Some? && Lookup(FirstServer(config).value, "url") == r
    ensures (FirstServer(config).Some? && Lookup(FirstServer(config).value, "url").Some?
             && Lookup(FirstServer(config).value, "url").value != JNull) ==> r.Some?
    ensures config.JObj? && !Truthy(Get(config.fields, "mcpServers", JObj([]))) ==> r.None?
  {
    match FirstServer(config)
    case None => None
    case Some(entry) =>
      match Lookup(entry, "url")
      case Some(u) => if u == JNull then None else Some(u)
      case None => None
  }

  /**
   * The `Authorization` header of the first server entry (lines 219-224): its
   * non-null `headers.Authorization`, and `None` when any step is missing.
   */
  function AuthHeader(config: Json): (r: Option<Json>)
    ensures r.Some? ==> r.value != JNull
    ensures r.Some? ==>
      && FirstServer(config).Some?
      && (var h := Lookup(FirstServer(config).value, "headers");
          h.Some? && h.value.JObj? && Lookup(h.value.fields, "Authorization") == r)
    ensures (&& FirstServer(config).Some?
             && (var h := Lookup(FirstServer(config).value, "headers");
                 h.Some? && h.value.JObj? && Lookup(h.value.fields, "Authorization").Some?
                 && Lookup(h.value.fields, "Authorization").value != JNull)) ==> r.Some?
    ensures config.JObj? && !Truthy(Get(config.fields, "mcpServers", JObj([]))) ==> r.None?
  {
    match FirstServer(config)
    case None => None
    case Some(entry) =>
      match Lookup(entry, "headers")
      case Some(JObj(h)) =>
        (match Lookup(h, "Authorization")
         case Some(a) => if a == JNull then None else Some(a)
         case None => None)
      case _ => None
  }

  /** The configuration says it was recovered from truncated output. */
  predicate MarkedExtracted(config: Json) {
    config.JObj? && Lookup(config.fields, "_extracted_from_truncated_json") == Some(JBool(true))
  }

  /**
   * `_extract_mcp_servers_from_truncated_json`: fails unless both the URL and
   * the Bearer credential are found; otherwise a one-server configuration
   * carrying exactly the matched texts, named by the `mcpServers` pattern or
   * `extracted_server`, and marked as recovered.
   */
  function ExtractTruncated(text: string): (r: Option<Json>)
    ensures r.None? <==> Search(text, UrlAt, 0).None? || Search(text, AuthAt, 0).None?
    ensures r.Some? ==> ServerUrl(r.value) == Some(JStr(Search(text, UrlAt, 0).value))
    ensures r.Some? ==> AuthHeader(r.value) == Some(JStr(Search(text, AuthAt, 0).value))
    ensures r.Some? ==> MarkedExtracted(r.value)
  {
    match Search(text, UrlAt, 0)
    case None => None
    case Some(url) =>
      match Search(text, AuthAt, 0)
      case None => None
      case Some(auth) =>
        var name := Search(text, ServerNameAt, 0).GetOr(ExtractedServerName);
        ReconstructedServers(name, url, auth);
        ReconstructedUrl(name, url, auth);
        ReconstructedAuth(name, url, auth);
        Some(Reconstructed(name, url, auth))
  }

  /** The server name used by the rebuilt configuration. */
  lemma {:induction false} ExtractedName(text: string)
    requires ExtractTruncated(text).Some?
    ensures var servers := Lookup(ExtractTruncated(text).value.fields, "mcpServers").value;
            servers.JObj? && |servers.fields| == 1
            && servers.fields[0].0 == (match Search(text, ServerNameAt, 0)
                                       case Some(n) => n
                                       case None => ExtractedServerName)
  {
    var name := Search(text, ServerNameAt, 0).GetOr(ExtractedServerName);
    ReconstructedServers(name, Search(text, UrlAt, 0).value, Search(text, AuthAt, 0).value);
  }

  /** `bytes.decode('latin-1')`: every byte becomes the character with the same code. */
  function Latin1(b: seq<byte>): (t: string)
    ensures |t| == |b| && forall i :: 0 <= i < |b| ==> t[i] as int == b[i] as int
  {
    seq(|b|, i requires 0 <= i < |b| => (b[i] as int) as char)
  }

  /**
   * The three-tier decode of lines 474-489: `utf8` stands for `bytes.decode('utf-8')`
   * and `parse` for `json.loads`, both library calls outside this model.
   */
  function DecodeConfig(body: seq<byte>, utf8: seq<byte> -> Option<string>,
                        parse: string -> Option<Json>): Option<Json>
  {
    match utf8(body)
    case Some(text) =>
      if parse(text).Some? then parse(text) else DecodeLenient(body, parse)
    case None => DecodeLenient(body, parse)
  }

  function DecodeLenient(body: seq<byte>, parse: string -> Option<Json>): Option<Json> {
    var text := Latin1(body);
    if parse(text).Some? then parse(text) else ExtractTruncated(text)
  }

  /** `_discover_server_endpoint` after the process has been read: frame, then decode. */
  function DiscoverEndpoint(stdout: seq<byte>, utf8: seq<byte> -> Option<string>,
                            parse: string -> Option<Json>): Option<Json>
  {
    match DecodeFrame(stdout)
    case None => None
    case Some(body) => DecodeConfig(body, utf8, parse)
  }

  /**
   * Degraded recovery end to end: when neither decode parses the body, the
   * configuration comes from the two recovered fields, and the URL and the
   * credential a connection attempt reads from it are exactly the matched texts.
   */
  lemma {:induction false} DegradedRecovery(body: seq<byte>, trailing: seq<byte>,
                                            utf8: seq<byte> -> Option<string>,
                                            parse: string -> Option<Json>)
    requires 0 < |body| <= MaxMessageLength
    requires utf8(body).None? || parse(utf8(body).value).None?
    requires parse(Latin1(body)).None?
    ensures var text := Latin1(body);
            var c := DiscoverEndpoint(EncodeFrame(body) + trailing, utf8, parse);
            (Search(text, UrlAt, 0).Some? && Search(text, AuthAt, 0).Some?) <==> c.Some?
    ensures var text := Latin1(body);
            var c := DiscoverEndpoint(EncodeFrame(body) + trailing, utf8, parse);
            c.Some? ==> ServerUrl(c.value) == Some(JStr(Search(text, UrlAt, 0).value))
                        && AuthHeader(c.value) == Some(JStr(Search(text, AuthAt, 0).value))
                        && MarkedExtracted(c.value)
  {
    DecodeEncodeFrame(body, trailing);
  }

  /** A body that decodes strictly is used as decoded; the fallback never runs. */
  lemma {:induction false} StrictDecodeWins(body: seq<byte>, utf8: seq<byte> -> Option<string>,
                                            parse: string -> Option<Json>)
    requires utf8(body).Some? && parse(utf8(body).value).Some?
    ensures DecodeConfig(body, utf8, parse) == parse(utf8(body).value)
  {
  }
}
