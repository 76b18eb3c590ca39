/** The providers reachable through the browser backend and the catalogue facts it exports. */
module Providers {

  datatype Provider = Claude | Grok | Gemini | ChatGpt | Perplexity | NotebookLm

  /** Lower-case display name of a provider (its `to_string().to_lowercase()`). */
  function Name(p: Provider): (s: string)
  {
    match p
    case Claude => "claude"
    case Grok => "grok"
    case Gemini => "gemini"
    case ChatGpt => "chatgpt"
    case Perplexity => "perplexity"
    case NotebookLm => "notebooklm"
  }

  /** Display names are pairwise different, so a name identifies its provider. */
  lemma NameInjective(p: Provider, q: Provider)
    ensures Name(p) == Name(q) <==> p == q
  {
  }

  /** What the backend crate exports about its providers: `Provider::all()` and the two capability sets. */
  datatype Catalog = Catalog(all: seq<Provider>, search: set<Provider>, largeContext: set<Provider>)

  predicate Distinct<T(==)>(s: seq<T>)
  {
    forall i, j :: 0 <= i < j < |s| ==> s[i] != s[j]
  }

  /** Position of the first occurrence of `x` in `s`. */
  function IndexOf<T(==)>(s: seq<T>, x: T): (k: nat)
    requires x in s
    ensures k < |s| && s[k] == x
    ensures forall j :: 0 <= j < k ==> s[j] != x
  {
    if s[0] == x then 0 else 1 + IndexOf(s[1..], x)
  }
}
