/** The translation context (lib/i18n/context.tsx): the current language,
    chosen from a stored value at start-up, and `t`, which walks a dotted key
    through the language's translation tree and fills in `{{name}}`
    placeholders. The two translation trees are not part of this model:
    they are given to the constructor. */
module I18n {
  import opened Wrappers
  import opened Text

  datatype Language = En | PtBR

  /** A translation tree: a string, or an object of named subtrees. */
  datatype Node = Leaf(text: string) | Branch(children: map<string, Node>)

  /** The language's code as stored. */
  function LanguageCode(lang: Language): string {
    match lang
    case En => "en"
    case PtBR => "pt-BR"
  }

  /** The language a stored value names, if it is one of the two codes. */
  function LanguageOf(saved: Option<string>): (lang: Option<Language>)
    ensures lang.Some? <==> saved == Some("en") || saved == Some("pt-BR")
  {
    if saved == Some("en") then Some(En)
    else if saved == Some("pt-BR") then Some(PtBR)
    else None
  }

  /** Reading back a stored code gives the language that was stored. */
  lemma LanguageCodeRoundTrip(lang: Language)
    ensures LanguageOf(Some(LanguageCode(lang))) == Some(lang)
  {
  }

  // -------------------------------------------------------------- lookup

  /** A canonical array index: "0", or digits not starting with "0". */
  predicate IsIndex(k: string) {
    k != [] && AllDigits(k) && (k[0] == '0' ==> |k| == 1)
  }

  /** `value?.[k]`: nothing stays nothing; an object gives its entry; a
      string gives its character at a canonical index. Properties inherited
      from the prototype are not modelled. */
  function Step(value: Option<Node>, k: string): Option<Node> {
    match value
    case None => None
    case Some(Branch(children)) => if k in children then Some(children[k]) else None
    case Some(Leaf(s)) =>
      if IsIndex(k) && DecimalValue(k) < |s| then Some(Leaf([s[DecimalValue(k)]])) else None
  }

  /** The `for` loop over the key's segments, as a function. */
  function Resolve(value: Option<Node>, keys: seq<string>): Option<Node>
    decreases |keys|
  {
    if keys == [] then value else Resolve(Step(value, keys[0]), keys[1..])
  }

  /** Once a segment is missing, the lookup stays `undefined`. */
  lemma {:induction false} MissingStaysMissing(keys: seq<string>)
    ensures Resolve(None, keys) == None
    decreases |keys|
  {
    if keys != [] {
      MissingStaysMissing(keys[1..]);
    }
  }

  /** Walking a path segment by segment is walking its two halves in turn. */
  lemma {:induction false} ResolveAppend(value: Option<Node>, a: seq<string>, b: seq<string>)
    ensures Resolve(value, a + b) == Resolve(Resolve(value, a), b)
    decreases |a|
  {
    if a != [] {
      assert (a + b)[0] == a[0] && (a + b)[1..] == a[1..] + b;
      ResolveAppend(Step(value, a[0]), a[1..], b);
      assert Resolve(value, a + b) == Resolve(Step(value, a[0]), a[1..] + b);
      assert Resolve(value, a) == Resolve(Step(value, a[0]), a[1..]);
    } else {
      assert a + b == b;
    }
  }

  // ------------------------------------------------------------ placeholders

  /** `"{{" + name + "}}"`. */
  function Placeholder(name: string): (p: string)
    ensures |p| == |name| + 4
  {
    "{{" + name + "}}"
  }

  /** `s.replace(new RegExp(pattern, "g"), replacement)` for a pattern with
      no special characters: every occurrence, scanning left to right,
      without overlaps. */
  function ReplaceAll(s: string, pattern: string, replacement: string): string
    requires pattern != []
    decreases |s|
  {
    if |s| < |pattern| then s
    else if s[..|pattern|] == pattern then replacement + ReplaceAll(s[|pattern|..], pattern, replacement)
    else [s[0]] + ReplaceAll(s[1..], pattern, replacement)
  }

  /** `pattern` occurs in `s`. */
  predicate Occurs(pattern: string, s: string) {
    exists i | 0 <= i <= |s| :: pattern <= s[i..]
  }

  /** Text without the pattern is left as it is. */
  lemma {:induction false} ReplaceAllAbsent(s: string, pattern: string, replacement: string)
    requires pattern != []
    requires !Occurs(pattern, s)
    ensures ReplaceAll(s, pattern, replacement) == s
    decreases |s|
  {
    if |s| >= |pattern| {
      assert s[0..] == s;
      assert !Occurs(pattern, s[1..]) by {
        forall i | 0 <= i <= |s[1..]| ensures !(pattern <= s[1..][i..]) {
          assert s[1..][i..] == s[i + 1..];
        }
      }
      ReplaceAllAbsent(s[1..], pattern, replacement);
    }
  }

  /** Replacing the pattern by itself changes nothing. */
  lemma {:induction false} ReplaceAllBySelf(s: string, pattern: string)
    requires pattern != []
    ensures ReplaceAll(s, pattern, pattern) == s
    decreases |s|
  {
    if |s| >= |pattern| {
      if s[..|pattern|] == pattern {
        ReplaceAllBySelf(s[|pattern|..], pattern);
        assert s == s[..|pattern|] + s[|pattern|..];
      } else {
        ReplaceAllBySelf(s[1..], pattern);
        assert s == [s[0]] + s[1..];
      }
    }
  }

  /** Text made of the pattern alone becomes the replacement. */
  lemma ReplaceAllWhole(pattern: string, replacement: string)
    requires pattern != []
    ensures ReplaceAll(pattern, pattern, replacement) == replacement
  {
    assert pattern[|pattern|..] == [];
    assert pattern[..|pattern|] == pattern;
  }

  /** A character that cannot start the pattern is kept, and the scan goes
      on after it. */
  lemma ReplaceAllSkip(c: char, s: string, pattern: string, replacement: string)
    requires pattern != [] && c != pattern[0]
    ensures ReplaceAll([c] + s, pattern, replacement) == [c] + ReplaceAll(s, pattern, replacement)
  {
    assert ([c] + s)[1..] == s;
    if |[c] + s| >= |pattern| {
      assert ([c] + s)[..|pattern|][0] == c;
    }
  }

  /** An occurrence at the front is replaced, and the scan goes on after
      it. */
  lemma ReplaceAllFront(s: string, pattern: string, replacement: string)
    requires pattern != []
    ensures ReplaceAll(pattern + s, pattern, replacement) == replacement + ReplaceAll(s, pattern, replacement)
  {
    assert (pattern + s)[..|pattern|] == pattern;
    assert (pattern + s)[|pattern|..] == s;
  }

  /** The `reduce` over `Object.entries(params)`, in entry order. Values
      arrive already converted by `String`. */
  function Substitute(s: string, params: seq<(string, string)>): string
    decreases |params|
  {
    if params == [] then s
    else Substitute(ReplaceAll(s, Placeholder(params[0].0), params[0].1), params[1..])
  }

  /** Placeholders for none of the parameters: the text comes back as it
      is. */
  lemma {:induction false} SubstituteNothingToFill(s: string, params: seq<(string, string)>)
    requires forall i :: 0 <= i < |params| ==> !Occurs(Placeholder(params[i].0), s)
    ensures Substitute(s, params) == s
    decreases |params|
  {
    if params != [] {
      ReplaceAllAbsent(s, Placeholder(params[0].0), params[0].1);
      SubstituteNothingToFill(s, params[1..]);
    }
  }

  /** The `{{name}}` placeholder alone is filled with the value of `name`. */
  lemma SubstituteOne(name: string, value: string)
    ensures Substitute(Placeholder(name), [(name, value)]) == value
  {
    ReplaceAllWhole(Placeholder(name), value);
  }

  lemma GreetingPieces()
    ensures "Hi {{name}}!" == ['H'] + (['i'] + ([' '] + (Placeholder("name") + "!")))
    ensures "Hi Ana!" == ['H'] + (['i'] + ([' '] + ("Ana" + "!")))
  {
  }

  /** "Hi {{name}}!" with `name` set to "Ana" reads "Hi Ana!". */
  lemma SubstituteGreeting()
    ensures Substitute("Hi {{name}}!", [("name", "Ana")]) == "Hi Ana!"
  {
    var p := Placeholder("name");
    GreetingPieces();
    ReplaceAllSkip('H', ['i'] + ([' '] + (p + "!")), p, "Ana");
    ReplaceAllSkip('i', [' '] + (p + "!"), p, "Ana");
    ReplaceAllSkip(' ', p + "!", p, "Ana");
    ReplaceAllFront("!", p, "Ana");
    assert ReplaceAll("!", p, "Ana") == "!";
  }

  // -------------------------------------------------------------- translate

  /** `t(key, params)` against the tree `root`: the string at the key's path,
      with its placeholders filled when there are parameters; the key itself
      when the path does not end at a string. */
  function Translate(root: Node, key: string, params: Option<seq<(string, string)>>): string {
    match Resolve(Some(root), Split(key, '.'))
    case Some(Leaf(s)) => if params.Some? then Substitute(s, params.value) else s
    case _ => key
  }

  /** A path of segments without dots, written with dots, finds the string
      stored at that path; and a path that does not end at a string gives
      back the key. */
  lemma TranslatePath(root: Node, path: seq<string>)
    requires |path| >= 1 && forall i :: 0 <= i < |path| ==> '.' !in path[i]
    ensures Resolve(Some(root), path).Some? && Resolve(Some(root), path).value.Leaf? ==>
      Translate(root, Join(path, '.'), None) == Resolve(Some(root), path).value.text
    ensures !(Resolve(Some(root), path).Some? && Resolve(Some(root), path).value.Leaf?) ==>
      Translate(root, Join(path, '.'), None) == Join(path, '.')
  {
    SplitJoin(path, '.');
  }

  lemma ResolveStep(value: Option<Node>, keys: seq<string>, i: nat)
    requires i < |keys|
    ensures Resolve(value, keys[i..]) == Resolve(Step(value, keys[i]), keys[i + 1..])
  {
    assert keys[i..][1..] == keys[i + 1..];
  }

  class Translator {
    var language: Language
    const en: Node
    const ptBR: Node

    /** The provider starts in Brazilian Portuguese. */
    constructor (en: Node, ptBR: Node)
      ensures language == PtBR && this.en == en && this.ptBR == ptBR
    {
      this.en := en;
      this.ptBR := ptBR;
      language := PtBR;
    }

    /** The mount effect: the stored value is adopted only when it is one of
        the two codes. */
    method LoadSavedLanguage(saved: Option<string>)
      modifies this
      ensures LanguageOf(saved).Some? ==> language == LanguageOf(saved).value
      ensures LanguageOf(saved).None? ==> language == old(language)
    {
      if saved.Some? && (saved.value == "en" || saved.value == "pt-BR") {
        language := if saved.value == "en" then En else PtBR;
      }
    }

    /** `setLanguage`; writing the choice to storage is not modelled. */
    method SetLanguage(lang: Language)
      modifies this
      ensures language == lang
    {
      language := lang;
    }

    function Dictionary(): Node
      reads this
    {
      if language == En then en else ptBR
    }

    /** `t`: the segments walked one at a time, then the fallback or the
        substitution. */
    method T(key: string, params: Option<seq<(string, string)>>) returns (r: string)
      ensures r == Translate(Dictionary(), key, params)
    {
      var keys := Split(key, '.');
      var value: Option<Node> := Some(Dictionary());
      var i := 0;
      while i < |keys|
        invariant 0 <= i <= |keys|
        invariant Resolve(value, keys[i..]) == Resolve(Some(Dictionary()), keys)
      {
        ResolveStep(value, keys, i);
        value := Step(value, keys[i]);
        i := i + 1;
      }
      assert keys[|keys|..] == [];
      if value.None? || !value.value.Leaf? {
        return key;
      }
      if params.Some? {
        return Substitute(value.value.text, params.value);
      }
      return value.value.text;
    }
  }
}
