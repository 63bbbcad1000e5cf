/**
 * JavaScript template literals as data. Every `userPromptTemplate` of the
 * gateway is an arrow `(keyword, tone, length) => `...`` whose body is one
 * template literal; a `Template` keeps its literal text and its `${...}`
 * interpolations in order, and `Render` performs the interpolation.
 */
module Templates {
  import opened Strings

  /** One segment of a template literal. */
  datatype Part =
    | Text(s: string)   // literal text
    | Keyword           // ${keyword}
    | Tone              // ${tone}
    | Length            // ${length}
    | ByLength(short: string, medium: string, otherwise: string)
                        // ${length === 'short' ? short : length === 'medium' ? medium : otherwise}

  type Template = seq<Part>

  /** A registry entry: the object `{ systemPrompt, userPromptTemplate }`. */
  datatype Entry = Entry(systemPrompt: string, userPromptTemplate: Template)

  function RenderPart(p: Part, keyword: string, tone: string, length: string): string {
    match p
    case Text(s) => s
    case Keyword => keyword
    case Tone => tone
    case Length => length
    case ByLength(a, b, c) => if length == "short" then a else if length == "medium" then b else c
  }

  /** Calling the template arrow with `(keyword, tone, length)`. */
  function Render(tpl: Template, keyword: string, tone: string, length: string): string {
    if tpl == [] then "" else RenderPart(tpl[0], keyword, tone, length) + Render(tpl[1..], keyword, tone, length)
  }

  /** Rendering distributes over concatenation of templates. */
  lemma {:induction false} RenderAppend(a: Template, b: Template, keyword: string, tone: string, length: string)
    ensures Render(a + b, keyword, tone, length) == Render(a, keyword, tone, length) + Render(b, keyword, tone, length)
  {
    if a != [] {
      assert (a + b)[1..] == a[1..] + b;
      RenderAppend(a[1..], b, keyword, tone, length);
    } else {
      assert a + b == b;
    }
  }

  /** The rendering of any contiguous run of parts occurs in the rendering of the whole template. */
  lemma RenderWindowOccurs(tpl: Template, i: nat, j: nat, keyword: string, tone: string, length: string)
    requires i <= j <= |tpl|
    ensures Occurs(Render(tpl[i..j], keyword, tone, length), Render(tpl, keyword, tone, length))
  {
    assert tpl == tpl[..i] + tpl[i..j] + tpl[j..];
    RenderAppend(tpl[..i] + tpl[i..j], tpl[j..], keyword, tone, length);
    RenderAppend(tpl[..i], tpl[i..j], keyword, tone, length);
  }

  lemma OccursTransitive(a: string, b: string, c: string)
    requires Occurs(a, b) && Occurs(b, c)
    ensures Occurs(a, c)
  {
    var p1, q1 :| b == p1 + a + q1;
    var p2, q2 :| c == p2 + b + q2;
    assert c == (p2 + p1) + a + (q1 + q2);
  }

  /** Whatever a single part renders to occurs in the rendering of a template holding that part. */
  lemma PartOccurs(tpl: Template, i: nat, keyword: string, tone: string, length: string)
    requires i < |tpl|
    ensures Occurs(RenderPart(tpl[i], keyword, tone, length), Render(tpl, keyword, tone, length))
  {
    RenderWindowOccurs(tpl, i, i + 1, keyword, tone, length);
    assert tpl[i..i + 1] == [tpl[i]];
    assert Render([tpl[i]], keyword, tone, length) == RenderPart(tpl[i], keyword, tone, length);
  }

  /** A hole between a text ending in `lead` and a text starting with `trail` renders as
      `lead`, then the hole's value, then `trail`, somewhere in the output. */
  lemma FramedHoleOccurs(tpl: Template, i: nat, lead: string, trail: string,
                         keyword: string, tone: string, length: string)
    requires 0 < i < |tpl| - 1
    requires tpl[i - 1].Text? && HasSuffix(tpl[i - 1].s, lead)
    requires tpl[i + 1].Text? && HasPrefix(tpl[i + 1].s, trail)
    ensures Occurs(lead + RenderPart(tpl[i], keyword, tone, length) + trail, Render(tpl, keyword, tone, length))
  {
    var a, b := tpl[i - 1].s, tpl[i + 1].s;
    var v := RenderPart(tpl[i], keyword, tone, length);
    RenderWindowOccurs(tpl, i - 1, i + 2, keyword, tone, length);
    var w := tpl[i - 1..i + 2];
    assert w[1..][1..][1..] == [];
    assert Render(w[1..][1..], keyword, tone, length) == b + "";
    assert Render(w[1..], keyword, tone, length) == v + (b + "");
    assert Render(w, keyword, tone, length) == a + (v + (b + ""));
    assert a == a[..|a| - |lead|] + lead;
    assert b == trail + b[|trail|..];
    assert a + (v + (b + "")) == a[..|a| - |lead|] + (lead + v + trail) + b[|trail|..];
    OccursTransitive(lead + v + trail, a + (v + (b + "")), Render(tpl, keyword, tone, length));
  }

  /** A hole directly after a text ending in `lead` renders right after `lead`. */
  lemma LedHoleOccurs(tpl: Template, i: nat, lead: string, keyword: string, tone: string, length: string)
    requires 0 < i < |tpl|
    requires tpl[i - 1].Text? && HasSuffix(tpl[i - 1].s, lead)
    ensures Occurs(lead + RenderPart(tpl[i], keyword, tone, length), Render(tpl, keyword, tone, length))
  {
    var a := tpl[i - 1].s;
    var v := RenderPart(tpl[i], keyword, tone, length);
    RenderWindowOccurs(tpl, i - 1, i + 1, keyword, tone, length);
    var w := tpl[i - 1..i + 1];
    assert w[1..][1..] == [];
    assert Render(w[1..], keyword, tone, length) == v + "";
    assert Render(w, keyword, tone, length) == a + (v + "");
    assert a == a[..|a| - |lead|] + lead;
    assert a + (v + "") == a[..|a| - |lead|] + (lead + v) + "";
    OccursTransitive(lead + v, a + (v + ""), Render(tpl, keyword, tone, length));
  }

  /** A template whose last three parts are a text ending in `lead`, a hole and a final
      text renders to a string that ends in `lead`, the hole's value and that final text. */
  lemma EndsWithHole(tpl: Template, lead: string, keyword: string, tone: string, length: string)
    requires |tpl| >= 3
    requires tpl[|tpl| - 3].Text? && HasSuffix(tpl[|tpl| - 3].s, lead)
    requires tpl[|tpl| - 1].Text?
    ensures HasSuffix(Render(tpl, keyword, tone, length),
                      lead + RenderPart(tpl[|tpl| - 2], keyword, tone, length) + tpl[|tpl| - 1].s)
  {
    var n := |tpl|;
    var a, b := tpl[n - 3].s, tpl[n - 1].s;
    var v := RenderPart(tpl[n - 2], keyword, tone, length);
    assert tpl == tpl[..n - 3] + tpl[n - 3..];
    RenderAppend(tpl[..n - 3], tpl[n - 3..], keyword, tone, length);
    var w := tpl[n - 3..];
    assert w[1..][1..][1..] == [];
    assert Render(w[1..][1..], keyword, tone, length) == b + "";
    assert Render(w[1..], keyword, tone, length) == v + (b + "");
    assert b + "" == b;
    assert Render(w, keyword, tone, length) == a + (v + b);
    SuffixExtend(a, lead, v + b);
    ConcatHasSuffix(Render(tpl[..n - 3], keyword, tone, length), Render(w, keyword, tone, length));
    SuffixTransitive(Render(tpl, keyword, tone, length), a + (v + b), lead + (v + b));
    assert lead + (v + b) == lead + v + b;
  }

  /** When a string ends in `lead`, a length-dependent choice among three distinct values of one
      size and `trail`, the value it ends with tells the length apart. */
  lemma ChoiceAtEnd(r: string, lead: string, a: string, b: string, c: string, trail: string,
                    keyword: string, tone: string, length: string)
    requires |a| == |b| == |c| && a != b && b != c && a != c
    requires HasSuffix(r, lead + RenderPart(ByLength(a, b, c), keyword, tone, length) + trail)
    ensures HasSuffix(r, lead + a + trail) <==> length == "short"
    ensures HasSuffix(r, lead + b + trail) <==> length == "medium"
    ensures HasSuffix(r, lead + c + trail) <==> length != "short" && length != "medium"
  {
    var v := RenderPart(ByLength(a, b, c), keyword, tone, length);
    forall d | |d| == |a|
      ensures HasSuffix(r, lead + d + trail) <==> v == d
    {
      SuffixesOfSameLength(r, lead + v + trail, lead + d + trail);
      if lead + v + trail == lead + d + trail {
        assert v == (lead + v + trail)[|lead|..|lead| + |v|];
        assert d == (lead + d + trail)[|lead|..|lead| + |d|];
      }
    }
  }

  /** A template without a `${tone}` hole renders the same for every tone. */
  lemma {:induction false} ToneFree(tpl: Template, keyword: string, tone1: string, tone2: string, length: string)
    requires Tone !in tpl
    ensures Render(tpl, keyword, tone1, length) == Render(tpl, keyword, tone2, length)
  {
    if tpl != [] {
      assert tpl[0] != Tone;
      ToneFree(tpl[1..], keyword, tone1, tone2, length);
    }
  }

  /** With a `${tone}` hole, the output for the tone "x" is strictly longer than for the tone "". */
  lemma {:induction false} ToneGrows(tpl: Template, keyword: string, length: string)
    ensures |Render(tpl, keyword, "", length)| + (if Tone in tpl then 1 else 0) <= |Render(tpl, keyword, "x", length)|
  {
    if tpl != [] {
      ToneGrows(tpl[1..], keyword, length);
      assert Tone in tpl <==> tpl[0] == Tone || Tone in tpl[1..];
    }
  }

  /** No part of the template looks at `length`. */
  predicate LengthBlind(tpl: Template) {
    forall p :: p in tpl ==> p != Length && !p.ByLength?
  }

  /** A template that never looks at `length` renders the same for every length. */
  lemma {:induction false} LengthFree(tpl: Template, keyword: string, tone: string, length1: string, length2: string)
    requires LengthBlind(tpl)
    ensures Render(tpl, keyword, tone, length1) == Render(tpl, keyword, tone, length2)
  {
    if tpl != [] {
      assert tpl[0] in tpl;
      LengthFree(tpl[1..], keyword, tone, length1, length2);
    }
  }
}
