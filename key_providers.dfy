/** The key-provider filter `extract_key_providers`: it keeps the providers
    whose id contains, ignoring case, one of a fixed allowlist of provider
    tokens. */
module KeyProviderFilter {
  import opened Dicts

  /** The allowlist. The source keeps it in a Python `set`, so the order in
      which it is visited is not fixed. */
  const KeyProviderIds: set<string> :=
    {"openai", "anthropic", "google", "deepseek", "groq",
     "meta", "xai", "moonshotai", "qwen", "ollama", "lm-studio"}

  /** `str.lower()` on one character, for the ASCII letters. */
  function LowerChar(c: char): char
  {
    if 'A' <= c <= 'Z' then (c as int - 'A' as int + 'a' as int) as char else c
  }

  /** `str.lower()`. */
  function Lower(s: string): string
  {
    seq(|s|, i requires 0 <= i < |s| => LowerChar(s[i]))
  }

  /** Python's `needle in haystack` on strings. */
  predicate Contains(haystack: string, needle: string)
  {
    exists i :: 0 <= i <= |haystack| && needle <= haystack[i..]
  }

  /** Some token of `tokens` occurs in the lower-cased `id`. */
  predicate MatchesAny(id: string, tokens: set<string>)
  {
    exists t :: t in tokens && Contains(Lower(id), t)
  }

  /** The filter's criterion: some allowlist token is a substring of the
      lower-cased id. */
  predicate IsKeyProviderId(id: string)
  {
    MatchesAny(id, KeyProviderIds)
  }

  /** A string with no ASCII capital is its own lower case. */
  lemma LowerOfLower(s: string)
    requires forall i :: 0 <= i < |s| ==> !('A' <= s[i] <= 'Z')
    ensures Lower(s) == s
  {
  }

  /** An id equal to an allowlist token passes the substring test too, so
      the source's exact-match branch adds no key and changes no value beyond
      the substring branch; it can only change the insertion order. */
  lemma ExactMatchIncluded(id: string)
    requires id in KeyProviderIds
    ensures IsKeyProviderId(id)
  {
    TokenMatchesItself(id);
  }

  /** Every allowlist token is lower case, so it occurs in its own lower case. */
  lemma TokenMatchesItself(token: string)
    requires token in KeyProviderIds
    ensures Contains(Lower(token), token)
  {
    assert forall t :: t in KeyProviderIds ==> forall i :: 0 <= i < |t| ==> 'a' <= t[i] <= 'z' || t[i] == '-';
    LowerOfLower(token);
    assert token <= Lower(token)[0..];
  }

  /** After the tokens `done` have been visited: `keyProviders` holds exactly
      the providers whose id matches one of them, with their values. */
  ghost predicate SelectedBy<V>(keyProviders: Dict<V>, providers: Dict<V>, done: set<string>)
  {
    forall k :: Get(keyProviders, k) == if MatchesAny(k, done) then Get(providers, k) else None
  }

  /** While `token` is being visited, after the exact-match branch and the
      first `j` providers. */
  ghost predicate SelectedWhile<V>(keyProviders: Dict<V>, providers: Dict<V>, done: set<string>, token: string, j: nat)
    requires j <= |providers|
  {
    forall k :: Get(keyProviders, k) ==
      (if MatchesAny(k, done) || k == token || (Contains(Lower(k), token) && k in Keys(providers[..j]))
       then Get(providers, k) else None)
  }

  lemma ExactBranchStep<V>(keyProviders: Dict<V>, providers: Dict<V>, done: set<string>, token: string)
    requires SelectedBy(keyProviders, providers, done)
    ensures token in Keys(providers) ==>
      SelectedWhile(Put(keyProviders, token, Get(providers, token).value), providers, done, token, 0)
    ensures token !in Keys(providers) ==> SelectedWhile(keyProviders, providers, done, token, 0)
  {
  }

  lemma SubstringBranchStep<V>(keyProviders: Dict<V>, providers: Dict<V>, done: set<string>, token: string, j: nat)
    requires DistinctKeys(providers) && j < |providers|
    requires SelectedWhile(keyProviders, providers, done, token, j)
    ensures Contains(Lower(providers[j].0), token) ==>
      SelectedWhile(Put(keyProviders, providers[j].0, providers[j].1), providers, done, token, j + 1)
    ensures !Contains(Lower(providers[j].0), token) ==>
      SelectedWhile(keyProviders, providers, done, token, j + 1)
  {
    assert Keys(providers[..j + 1]) == Keys(providers[..j]) + [providers[j].0];
    GetAt(providers, j);
  }

  lemma TokenDone<V>(keyProviders: Dict<V>, providers: Dict<V>, done: set<string>, token: string)
    requires token in KeyProviderIds
    requires SelectedWhile(keyProviders, providers, done, token, |providers|)
    ensures SelectedBy(keyProviders, providers, done + {token})
  {
    assert providers[..|providers|] == providers;
    TokenMatchesItself(token);
    forall k ensures Get(keyProviders, k) ==
      if MatchesAny(k, done + {token}) then Get(providers, k) else None
    {
      if k == token {
        assert Contains(Lower(k), token);
      }
    }
  }

  /** `extract_key_providers`: visits the allowlist in some order; for each
      token, copies the provider stored under exactly that id, then every
      provider whose lower-cased id contains the token. The result holds
      exactly the providers whose id passes the criterion, each with its
      value unchanged. */
  method ExtractKeyProviders<V>(providers: Dict<V>) returns (keyProviders: Dict<V>)
    requires DistinctKeys(providers)
    ensures DistinctKeys(keyProviders)
    ensures forall k :: Get(keyProviders, k) == if IsKeyProviderId(k) then Get(providers, k) else None
  {
    keyProviders := [];
    var remaining := KeyProviderIds;
    while remaining != {}
      invariant remaining <= KeyProviderIds
      invariant DistinctKeys(keyProviders)
      invariant SelectedBy(keyProviders, providers, KeyProviderIds - remaining)
      decreases remaining
    {
      var token :| token in remaining;
      ghost var done := KeyProviderIds - remaining;
      ExactBranchStep(keyProviders, providers, done, token);
      if token in Keys(providers) {
        keyProviders := Put(keyProviders, token, Get(providers, token).value);
      }
      for j := 0 to |providers|
        invariant DistinctKeys(keyProviders)
        invariant SelectedWhile(keyProviders, providers, done, token, j)
      {
        SubstringBranchStep(keyProviders, providers, done, token, j);
        var (fullId, provider) := providers[j];
        if Contains(Lower(fullId), token) {
          keyProviders := Put(keyProviders, fullId, provider);
        }
      }
      TokenDone(keyProviders, providers, done, token);
      assert done + {token} == KeyProviderIds - (remaining - {token});
      remaining := remaining - {token};
    }
  }
}
