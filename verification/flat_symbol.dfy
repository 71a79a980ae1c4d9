/** Symbols of the older core draft: a symbol is its text; a namespace is the part
    before the first `/`. */
module FlatSymbols {
  import opened Text

  datatype Symbol = Symbol(text: string)

  /** Prefixes the symbol with namespace `ns` and a `/`. */
  function AddNamespace(s: Symbol, ns: string): (r: Symbol)
    ensures |r.text| == |ns| + 1 + |s.text|
    ensures r.text[..|ns|] == ns && r.text[|ns|] == '/' && r.text[|ns| + 1..] == s.text
  {
    Symbol(ns + "/" + s.text)
  }

  /** Splits at the first `/` into (namespace, symbol); without a `/` the whole text is the
      namespace and the symbol is empty. */
  function SplitNamespace(s: Symbol): (r: (Symbol, Symbol))
    ensures '/' !in r.0.text
    ensures '/' in s.text ==> s.text == r.0.text + "/" + r.1.text
    ensures '/' !in s.text ==> r == (s, Symbol(""))
  {
    var k := IndexOf(s.text, '/');
    if k < |s.text| then
      assert s.text == s.text[..k] + "/" + s.text[k + 1..];
      (Symbol(s.text[..k]), Symbol(s.text[k + 1..]))
    else
      (s, Symbol(""))
  }

  /** Adding a slash-free namespace and splitting it off again recovers both parts. */
  lemma SplitAddNamespace(s: Symbol, ns: string)
    requires '/' !in ns
    ensures SplitNamespace(AddNamespace(s, ns)) == (Symbol(ns), s)
  {
    IndexOfJoined(ns, '/', s.text);
  }

  /** Splitting a namespaced symbol and adding the namespace back gives the symbol again. */
  lemma AddSplitNamespace(s: Symbol)
    requires '/' in s.text
    ensures var (ns, sym) := SplitNamespace(s); AddNamespace(sym, ns.text) == s
  {
  }

  /** The text of a symbol (its `Display`). */
  function ToText(s: Symbol): (r: string)
    ensures Symbol(r) == s
    ensures '/' in r ==> r == SplitNamespace(s).0.text + "/" + SplitNamespace(s).1.text
  {
    s.text
  }
}
