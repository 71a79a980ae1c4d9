/** Symbols of the newest core draft: the name units that every binding uses.
    A symbol is either `Local(name)` or `External(ns, name)` when it comes from
    another library's namespace; a name ending in `'` marks a mutable symbol. */
module Symbols {
  import opened Text

  datatype Symbol = External(ns: string, name: string) | Local(name: string)

  /** Letters accepted as the first character of a namespaced symbol
      (ASCII letters; Rust's `is_alphabetic` also accepts other Unicode letters). */
  predicate IsAlphabetic(c: char)
  {
    'a' <= c <= 'z' || 'A' <= c <= 'Z'
  }

  predicate EndsWithQuote(t: string)
  {
    |t| > 0 && t[|t| - 1] == '\''
  }

  /** Text of a symbol (its `Display`): `ns/name` for an external symbol, the bare name otherwise. */
  function ToText(s: Symbol): (r: string)
    ensures |r| >= |s.name|
    ensures r[|r| - |s.name|..] == s.name
    ensures s.External? ==> |r| > |s.ns| && r[..|s.ns|] == s.ns && r[|s.ns|] == '/'
  {
    match s
    case External(ns, name) => ns + "/" + name
    case Local(name) => name
  }

  /** Mutability is decided by the trailing `'` of the name, whatever the namespace. */
  function IsMutable(s: Symbol): (r: bool)
    ensures r <==> EndsWithQuote(s.name)
  {
    match s
    case External(_, name) => EndsWithQuote(name)
    case Local(name) => EndsWithQuote(name)
  }

  /** Moves a symbol into namespace `ns`, replacing any namespace it had. */
  function Export(s: Symbol, ns: string): (r: Symbol)
    ensures r.External? && r.ns == ns && r.name == s.name
    ensures IsMutable(r) == IsMutable(s)
  {
    match s
    case External(_, name) => External(ns, name)
    case Local(name) => External(ns, name)
  }

  /** Parses a symbol from its text; the text must not be empty (the source unwraps its first
      character). A text starting with a letter and containing `/` is split at its first `/`. */
  function FromText(t: string): (r: Symbol)
    requires |t| > 0
    ensures r.External? <==> IsAlphabetic(t[0]) && '/' in t
    ensures r.External? ==> '/' !in r.ns && |r.ns| < |t|
    ensures r.Local? ==> r.name == t
  {
    if IsAlphabetic(t[0]) && '/' in t then
      var k := IndexOf(t, '/');
      External(t[..k], t[k + 1..])
    else
      Local(t)
  }

  /** Parsing then displaying gives back the text. */
  lemma ToTextFromText(t: string)
    requires |t| > 0
    ensures ToText(FromText(t)) == t
  {
    if IsAlphabetic(t[0]) && '/' in t {
      var k := IndexOf(t, '/');
      assert t == t[..k] + "/" + t[k + 1..];
    }
  }

  /** A parsed symbol is mutable exactly when its text ends with `'`. */
  lemma MutableFromText(t: string)
    requires |t| > 0
    ensures IsMutable(FromText(t)) <==> EndsWithQuote(t)
  {
    ToTextFromText(t);
    var s := FromText(t);
    assert ToText(s)[|ToText(s)| - |s.name|..] == s.name;
  }

  /** Symbols that their own text parses back to. */
  predicate Canonical(s: Symbol)
  {
    match s
    case External(ns, _) => |ns| > 0 && IsAlphabetic(ns[0]) && '/' !in ns
    case Local(name) => |name| > 0 && !(IsAlphabetic(name[0]) && '/' in name)
  }

  /** Displaying then parsing gives back every canonical symbol. */
  lemma FromTextToText(s: Symbol)
    requires Canonical(s)
    ensures |ToText(s)| > 0 && FromText(ToText(s)) == s
  {
    if s.External? {
      IndexOfJoined(s.ns, '/', s.name);
      assert ToText(s)[|s.ns|] == '/';
    }
  }
}
