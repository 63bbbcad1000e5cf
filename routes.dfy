/**
 * The `/content-types` listing of `routes/routes.js`: one entry per registry key,
 * in registry order, with a display name built from the key.
 */
module Routes {
  import opened Strings
  import opened ContentConfigs

  /** `word.charAt(0).toUpperCase() + word.slice(1)`, for ASCII letters. */
  function Capitalize(word: string): (r: string)
    ensures |r| == |word|
    ensures word != [] ==> r[0] == ToUpperAscii(word[0]) && r[1..] == word[1..]
  {
    if word == [] then "" else [ToUpperAscii(word[0])] + word[1..]
  }

  /** `.map(word => ...)` with `Capitalize`. */
  function CapitalizeAll(words: seq<string>): (r: seq<string>)
    ensures |r| == |words|
    ensures forall i :: 0 <= i < |words| ==> r[i] == Capitalize(words[i])
  {
    if words == [] then [] else [Capitalize(words[0])] + CapitalizeAll(words[1..])
  }

  /** `key.split('-').map(...).join(' ')`. */
  function DisplayName(id: string): string {
    Join(CapitalizeAll(Split(id, '-')), " ")
  }

  /** An independent reading of the name: scan the key once, turning each hyphen into a
      space and upper-casing the first character after the start or after a hyphen. */
  function TitleCase(s: string, atStart: bool): string {
    if s == [] then ""
    else if s[0] == '-' then " " + TitleCase(s[1..], true)
    else [if atStart then ToUpperAscii(s[0]) else s[0]] + TitleCase(s[1..], false)
  }

  /** Scanning a hyphen-free word from its start capitalises it. */
  lemma {:induction false} TitleCaseWord(w: string, atStart: bool)
    requires '-' !in w
    ensures TitleCase(w, atStart) == if atStart then Capitalize(w) else w
  {
    if w != [] {
      assert '-' !in w[1..];
      TitleCaseWord(w[1..], false);
    }
  }

  /** Scanning past a hyphen-free word and a hyphen. */
  lemma {:induction false} TitleCaseSplit(w: string, rest: string)
    requires '-' !in w
    ensures TitleCase(w + "-" + rest, true) == Capitalize(w) + " " + TitleCase(rest, true)
  {
    if w == [] {
      assert w + "-" + rest == "-" + rest;
    } else {
      assert (w + "-" + rest)[1..] == w[1..] + "-" + rest;
      assert '-' !in w[1..];
      TitleCaseTail(w[1..], rest);
      assert Capitalize(w) == [ToUpperAscii(w[0])] + w[1..];
    }
  }

  lemma {:induction false} TitleCaseTail(w: string, rest: string)
    requires '-' !in w
    ensures TitleCase(w + "-" + rest, false) == w + " " + TitleCase(rest, true)
  {
    if w == [] {
      assert w + "-" + rest == "-" + rest;
    } else {
      assert (w + "-" + rest)[1..] == w[1..] + "-" + rest;
      assert '-' !in w[1..];
      TitleCaseTail(w[1..], rest);
    }
  }

  /** The split/map/join name is the one-pass scan. */
  lemma {:induction false} DisplayNameIsTitleCase(id: string)
    ensures DisplayName(id) == TitleCase(id, true)
    decreases |id|
  {
    if '-' !in id {
      TitleCaseWord(id, true);
    } else {
      var i := IndexOf(id, '-');
      var w, rest := id[..i], id[i + 1..];
      assert id == w + "-" + rest;
      assert '-' !in w;
      assert Split(id, '-') == [w] + Split(rest, '-');
      assert CapitalizeAll(Split(id, '-')) == [Capitalize(w)] + CapitalizeAll(Split(rest, '-'));
      DisplayNameIsTitleCase(rest);
      TitleCaseSplit(w, rest);
    }
  }

  /** Each character of the key gives one character of the name. */
  lemma {:induction false} TitleCaseLength(s: string, atStart: bool)
    ensures |TitleCase(s, atStart)| == |s|
  {
    if s != [] {
      TitleCaseLength(s[1..], s[0] == '-');
    }
  }

  /** The name is as long as the key. */
  lemma NameKeepsLength(id: string)
    ensures |DisplayName(id)| == |id|
  {
    DisplayNameIsTitleCase(id);
    TitleCaseLength(id, true);
  }

  /** A key made of lower-case ASCII letters and hyphens. */
  predicate IsSlug(s: string) {
    forall c :: c in s ==> 'a' <= c <= 'z' || c == '-'
  }

  /** Lower-casing a name and writing its spaces as hyphens. */
  function Slug(name: string): (r: string)
    ensures |r| == |name|
    ensures forall i :: 0 <= i < |name| ==> r[i] == if name[i] == ' ' then '-' else ToLowerAscii(name[i])
  {
    if name == [] then "" else [if name[0] == ' ' then '-' else ToLowerAscii(name[0])] + Slug(name[1..])
  }

  /** For a slug, `Slug` undoes the scan. */
  lemma {:induction false} SlugOfTitleCase(s: string, atStart: bool)
    requires IsSlug(s)
    ensures Slug(TitleCase(s, atStart)) == s
  {
    if s != [] {
      assert s[0] in s;
      forall c | c in s[1..] ensures c in s {
        var k :| 0 <= k < |s[1..]| && s[1..][k] == c;
        assert s[k + 1] == c;
      }
      SlugOfTitleCase(s[1..], s[0] == '-');
    }
  }

  /** For a slug, lower-casing the name and turning its spaces into hyphens gives back the key. */
  lemma NameRoundTrip(id: string)
    requires IsSlug(id)
    ensures Slug(DisplayName(id)) == id
  {
    DisplayNameIsTitleCase(id);
    SlugOfTitleCase(id, true);
  }

  /** Every registry key is a slug. */
  lemma KeyIsSlug(t: ContentType)
    ensures IsSlug(Id(t))
  {
  }

  /** One entry of the listing: `{ id, name, description }`. */
  datatype TypeInfo = TypeInfo(id: string, name: string, description: string)

  /** The listing object of one type. */
  function Describe(t: ContentType): (info: TypeInfo)
    ensures info.id == Id(t) && info.description == SystemPrompt(t)
    ensures info.name == TitleCase(info.id, true)
    ensures |info.name| == |info.id| && Slug(info.name) == info.id
  {
    DisplayNameIsTitleCase(Id(t));
    KeyIsSlug(t);
    NameKeepsLength(Id(t));
    NameRoundTrip(Id(t));
    TypeInfo(Id(t), DisplayName(Id(t)), SystemPrompt(t))
  }

  /** `Object.keys(contentConfigs).map(key => ({ ... }))`. */
  function ContentTypes(): (types: seq<TypeInfo>)
    ensures |types| == |Keys()| == 14
    ensures forall i :: 0 <= i < |types| ==> types[i].id == Keys()[i] && types[i] == Describe(Types[i])
  {
    seq(|Types|, i requires 0 <= i < |Types| => Describe(Types[i]))
  }

  /** Every listed type has a non-empty name. */
  lemma NamesNonEmpty()
    ensures forall i :: 0 <= i < |ContentTypes()| ==> ContentTypes()[i].name != ""
  {
    var types := ContentTypes();
    forall i | 0 <= i < |types|
      ensures types[i].name != ""
    {
      assert |types[i].name| == |Id(Types[i])|;
      IdNonEmpty(Types[i]);
    }
  }

  lemma IdNonEmpty(t: ContentType)
    ensures Id(t) != ""
  {
  }

  /** The names tell the listed types apart. */
  lemma NamesDistinct()
    ensures forall i, j :: 0 <= i < j < |ContentTypes()| ==> ContentTypes()[i].name != ContentTypes()[j].name
  {
    var types := ContentTypes();
    forall i, j | 0 <= i < j < |types|
      ensures types[i].name != types[j].name
    {
      IdInjectiveAt(i, j);
    }
  }

  lemma IdInjectiveAt(i: nat, j: nat)
    requires i < j < |Types|
    ensures Id(Types[i]) != Id(Types[j])
  {
    var a, b := Types[i], Types[j];
    TypesEnumerateAll(a);
    assert a != b;
    if Id(a) == Id(b) {
      IdInjective(a, b);
      assert false;
    }
  }

  /** A two-word key is listed as its two words capitalised, with a space between. */
  lemma TwoWordName(a: string, b: string)
    requires '-' !in a && '-' !in b
    ensures DisplayName(a + "-" + b) == Capitalize(a) + " " + Capitalize(b)
  {
    TitleCaseSplit(a, b);
    TitleCaseWord(b, true);
    DisplayNameIsTitleCase(a + "-" + b);
  }

  /** "dad-joke" is listed as "Dad Joke". */
  lemma DadJokeName()
    ensures DisplayName("dad-joke") == "Dad Joke"
  {
    assert ToUpperAscii('d') == 'D' && ToUpperAscii('j') == 'J';
    assert Capitalize("dad") == "Dad";
    assert Capitalize("joke") == "Joke";
    TwoWordName("dad", "joke");
    assert "dad" + "-" + "joke" == "dad-joke";
    assert "Dad" + " " + "Joke" == "Dad Joke";
  }

  /** "haiku" is listed as "Haiku". */
  lemma HaikuName()
    ensures DisplayName("haiku") == "Haiku"
  {
    assert ToUpperAscii('h') == 'H';
    assert Capitalize("haiku") == "Haiku";
    TitleCaseWord("haiku", true);
    DisplayNameIsTitleCase("haiku");
  }
}
