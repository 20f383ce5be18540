/**
 * Placeholder substitution, as done by `renderPromptFromTemplate`: for each key of the
 * values object in order, every `{{key}}` of the current text is replaced by the value
 * (or by "" when the value is falsy), and the next key works on the result.
 */
module Template {
  import opened Common

  /** A value of the substitution object: a string, an integer, null or undefined. */
  datatype Value = Text(s: string) | Number(n: int) | Null | Undefined

  predicate Falsy(v: Value) {
    v == Undefined || v == Null || v == Text("") || v == Number(0)
  }

  /** `values[key] || ""`, as `String.prototype.replace` turns it into text. */
  function Coerce(v: Value): (r: string)
    ensures r == "" <==> Falsy(v)
    ensures v.Text? ==> r == v.s
    ensures v.Number? && v.n != 0 ==> r == IntToDecimal(v.n)
  {
    match v
    case Undefined => ""
    case Null => ""
    case Text(s) => s
    case Number(n) => if n == 0 then "" else IntToDecimal(n)
  }

  predicate IdentStart(c: char) {
    'a' <= c <= 'z' || 'A' <= c <= 'Z' || c == '_'
  }

  predicate IdentChar(c: char) {
    IdentStart(c) || '0' <= c <= '9'
  }

  /**
   * A key that `new RegExp("{{" + key + "}}", "g")` reads literally: an identifier.
   * (A key of digits only would turn `{n}` into a quantifier.)
   */
  predicate PlainKey(k: string) {
    |k| > 0 && IdentStart(k[0]) && forall i :: 1 <= i < |k| ==> IdentChar(k[i])
  }

  function Placeholder(k: string): string {
    "{{" + k + "}}"
  }

  /** An occurrence of `p` in `s` starting at `i`. */
  predicate OccursAt(s: string, p: string, i: nat) {
    i + |p| <= |s| && s[i..i + |p|] == p
  }

  /**
   * `s.replace(/p/g, v)` for a literal pattern `p`: scanning left to right, each
   * occurrence is replaced and scanning resumes after it.
   */
  function ReplaceAll(s: string, p: string, v: string): string
    requires p != []
    decreases |s|
  {
    if |s| < |p| then s
    else if s[..|p|] == p then v + ReplaceAll(s[|p|..], p, v)
    else [s[0]] + ReplaceAll(s[1..], p, v)
  }

  /** The substitution loop: one global replacement per key, in key order. */
  function Substituted(text: string, values: seq<(string, Value)>): string
    decreases |values|
  {
    if values == [] then text
    else Substituted(ReplaceAll(text, Placeholder(values[0].0), Coerce(values[0].1)), values[1..])
  }

  predicate PlainKeys(values: seq<(string, Value)>) {
    forall i :: 0 <= i < |values| ==> PlainKey(values[i].0)
  }

  predicate DistinctKeys(values: seq<(string, Value)>) {
    forall i, j :: 0 <= i < j < |values| ==> values[i].0 != values[j].0
  }

  // ------------------------------------------------------------------ the loop

  /** The `for (const key of Object.keys(values))` loop of both renderers. */
  method SubstituteAll(template: string, values: seq<(string, Value)>) returns (rendered: string)
    ensures rendered == Substituted(template, values)
  {
    rendered := template;
    for i := 0 to |values|
      invariant Substituted(rendered, values[i..]) == Substituted(template, values)
    {
      assert values[i..][1..] == values[i + 1..];
      rendered := ReplaceAll(rendered, Placeholder(values[i].0), Coerce(values[i].1));
    }
    assert values[|values|..] == [];
  }

  /** The template files of the intellectual-property folders: (id, name) to contents. */
  type TemplateStore = (string, string) -> Option<string>

  /** `renderPromptFromTemplate(id, templateName, values)` of the v1 routes. */
  function RenderedTemplate(templates: TemplateStore, id: string, name: string, values: seq<(string, Value)>): Result<string, string> {
    match templates(id, name)
    case None => Err("Template " + name + " not found for IP " + id)
    case Some(text) => Ok(Substituted(text, values))
  }

  /**
   * The v1 renderer: a missing template file is an error naming the template and
   * the id, and nothing is substituted; otherwise the file is rendered.
   */
  method RenderPromptFromTemplate(templates: TemplateStore, id: string, name: string, values: seq<(string, Value)>)
    returns (r: Result<string, string>)
    ensures r == RenderedTemplate(templates, id, name, values)
    ensures r.Err? <==> templates(id, name).None?
    ensures r.Err? ==> r.error == "Template " + name + " not found for IP " + id
    ensures r.Ok? && values == [] ==> r.value == templates(id, name).value
  {
    match templates(id, name)
    case None =>
      r := Err("Template " + name + " not found for IP " + id);
    case Some(text) =>
      var rendered := SubstituteAll(text, values);
      r := Ok(rendered);
  }

  /**
   * The image-prompt renderer over its one fixed template file, whose contents are
   * given: with no values the template comes back unchanged.
   */
  method RenderFixedTemplate(template: string, values: seq<(string, Value)>) returns (rendered: string)
    ensures rendered == Substituted(template, values)
    ensures values == [] ==> rendered == template
  {
    rendered := SubstituteAll(template, values);
  }

  // ------------------------------------------------------- laws of ReplaceAll

  /** Where the pattern does not occur, replacement changes nothing. */
  lemma {:induction false} ReplaceAllAbsent(s: string, p: string, v: string)
    requires p != []
    requires forall i: nat :: !OccursAt(s, p, i)
    ensures ReplaceAll(s, p, v) == s
    decreases |s|
  {
    if |s| >= |p| {
      assert !OccursAt(s, p, 0);
      forall i: nat ensures !OccursAt(s[1..], p, i) {
        if i + |p| <= |s[1..]| {
          assert s[1..][i..i + |p|] == s[i + 1..i + 1 + |p|];
          assert !OccursAt(s, p, i + 1);
        }
      }
      ReplaceAllAbsent(s[1..], p, v);
    }
  }

  /** No occurrence straddles the end of `x` in `x + y`; the same holds after dropping a prefix of `x`. */
  lemma NoStraddleShift(x: string, y: string, p: string, k: nat)
    requires k <= |x|
    requires forall i: nat :: i < |x| < i + |p| ==> !OccursAt(x + y, p, i)
    ensures forall i: nat :: i < |x| - k < i + |p| ==> !OccursAt(x[k..] + y, p, i)
  {
    var s, t := x + y, x[k..] + y;
    assert t == s[k..];
    forall i: nat | i < |x| - k < i + |p| ensures !OccursAt(t, p, i) {
      if i + |p| <= |t| {
        var w1, w2 := t[i..i + |p|], s[i + k..i + k + |p|];
        forall j | 0 <= j < |p| ensures w1[j] == w2[j] {
          assert t[i + j] == s[i + k + j];
        }
        assert w1 == w2;
        assert !OccursAt(s, p, i + k);
      }
    }
  }

  /**
   * Replacement distributes over a concatenation when no occurrence of the pattern
   * straddles the seam.
   */
  lemma {:induction false} ReplaceAllConcat(x: string, y: string, p: string, v: string)
    requires p != []
    requires forall i: nat :: i < |x| < i + |p| ==> !OccursAt(x + y, p, i)
    ensures ReplaceAll(x + y, p, v) == ReplaceAll(x, p, v) + ReplaceAll(y, p, v)
    decreases |x|
  {
    var s := x + y;
    if x == [] {
      assert s == y;
    } else if |s| < |p| {
      assert ReplaceAll(x, p, v) == x;
      assert ReplaceAll(y, p, v) == y;
    } else if s[..|p|] == p {
      assert OccursAt(s, p, 0);
      assert |p| <= |x|;
      assert x[..|p|] == p;
      assert s[|p|..] == x[|p|..] + y;
      NoStraddleShift(x, y, p, |p|);
      ReplaceAllConcat(x[|p|..], y, p, v);
    } else {
      var x' := x[1..];
      assert s[1..] == x' + y;
      if |x| >= |p| {
        assert x[..|p|] == s[..|p|];
      } else {
        assert ReplaceAll(x, p, v) == x;
        assert ReplaceAll(x', p, v) == x';
      }
      assert ReplaceAll(x, p, v) == [x[0]] + ReplaceAll(x', p, v);
      NoStraddleShift(x, y, p, 1);
      ReplaceAllConcat(x', y, p, v);
    }
  }

  /** The characters of a placeholder: two braces, an identifier, two braces. */
  lemma PlaceholderShape(k: string)
    requires PlainKey(k)
    ensures var p := Placeholder(k);
      |p| >= 5 && p[0] == '{' && p[1] == '{' && p[|p| - 2] == '}' && p[|p| - 1] == '}'
      && p[2] == k[0]
      && forall i :: 2 <= i < |p| - 2 ==> p[i] != '{' && p[i] != '}'
  {
    var p := Placeholder(k);
    forall i | 2 <= i < |p| - 2 ensures p[i] != '{' && p[i] != '}' {
      assert p[i] == k[i - 2];
    }
  }

  /**
   * One pass over a text holding the placeholder `{{u}}`: the placeholder is replaced
   * if it is the pass's own key and left verbatim otherwise, and the text on either
   * side is replaced independently.
   */
  lemma ReplaceAllAroundPlaceholder(a: string, b: string, u: string, k: string, v: string)
    requires PlainKey(u) && PlainKey(k)
    ensures ReplaceAll(a + Placeholder(u) + b, Placeholder(k), v)
         == ReplaceAll(a, Placeholder(k), v) + (if u == k then v else Placeholder(u)) + ReplaceAll(b, Placeholder(k), v)
  {
    var p, q := Placeholder(k), Placeholder(u);
    NoStraddleBefore(a, q + b, u, k);
    ReplaceAllConcat(a, q + b, p, v);
    assert a + q + b == a + (q + b);
    NoStraddleAfter(b, u, k);
    ReplaceAllConcat(q, b, p, v);
    if u == k {
      ReplaceAllSelf(p, v);
    } else {
      OtherPlaceholderAbsent(u, k);
      ReplaceAllAbsent(q, p, v);
    }
  }

  /** A pattern replaced in itself yields the replacement. */
  lemma ReplaceAllSelf(p: string, v: string)
    requires p != []
    ensures ReplaceAll(p, p, v) == v
  {
    assert p[..|p|] == p;
    assert p[|p|..] == [];
    assert v + [] == v;
  }

  /** No placeholder occurrence begins in `a` and ends in a placeholder following it. */
  lemma NoStraddleBefore(a: string, rest: string, u: string, k: string)
    requires PlainKey(u) && PlainKey(k)
    requires StartsWith(rest, Placeholder(u))
    ensures forall i: nat :: i < |a| < i + |Placeholder(k)| ==> !OccursAt(a + rest, Placeholder(k), i)
  {
    var p, q := Placeholder(k), Placeholder(u);
    PlaceholderShape(k);
    PlaceholderShape(u);
    forall i: nat | i < |a| < i + |p| ensures !OccursAt(a + rest, p, i) {
      if i + |p| <= |a + rest| {
        var w := (a + rest)[i..i + |p|];
        var d := |a| - i;
        assert w[d] == rest[0] == q[0];
        if d == 1 {
          assert w[2] == rest[1] == q[1];
        }
        assert w[d] != p[d] || w[2] != p[2];
      }
    }
  }

  /** No placeholder occurrence begins in a placeholder and ends after it. */
  lemma NoStraddleAfter(b: string, u: string, k: string)
    requires PlainKey(u) && PlainKey(k)
    ensures forall i: nat :: i < |Placeholder(u)| < i + |Placeholder(k)| ==> !OccursAt(Placeholder(u) + b, Placeholder(k), i)
  {
    var p, q := Placeholder(k), Placeholder(u);
    PlaceholderShape(k);
    PlaceholderShape(u);
    forall i: nat | i < |q| < i + |p| ensures !OccursAt(q + b, p, i) {
      if i + |p| <= |q + b| {
        var w := (q + b)[i..i + |p|];
        assert w[0] == q[i];
        if i == 1 {
          assert w[1] == q[2];
        } else if i == 0 {
          assert w[|q| - 2] == q[|q| - 2];
        }
      }
    }
  }

  /** The placeholder of one key does not occur in the placeholder of another. */
  lemma OtherPlaceholderAbsent(u: string, k: string)
    requires PlainKey(u) && PlainKey(k) && u != k
    ensures forall i: nat :: !OccursAt(Placeholder(u), Placeholder(k), i)
  {
    var p, q := Placeholder(k), Placeholder(u);
    PlaceholderShape(k);
    PlaceholderShape(u);
    forall i: nat ensures !OccursAt(q, p, i) {
      if i + |p| <= |q| {
        var w := q[i..i + |p|];
        assert w[0] == q[i];
        if i == 1 {
          assert w[1] == q[2];
        } else if i == 0 && |p| == |q| {
          assert q[2..|q| - 2] == u;
          assert p[2..|p| - 2] == k;
          assert w == q;
        } else if i == 0 {
          assert w[|p| - 2] == q[|p| - 2];
        }
      }
    }
  }


  // --------------------------------------------------- laws of the whole loop

  /**
   * A placeholder whose name is not among the keys survives every pass verbatim;
   * the text around it is rendered as if it were not there.
   */
  lemma {:induction false} UnknownPlaceholderSurvives(a: string, b: string, u: string, values: seq<(string, Value)>)
    requires PlainKey(u) && PlainKeys(values)
    requires forall i :: 0 <= i < |values| ==> values[i].0 != u
    ensures Substituted(a + Placeholder(u) + b, values) == Substituted(a, values) + Placeholder(u) + Substituted(b, values)
    decreases |values|
  {
    if values != [] {
      var p, v := Placeholder(values[0].0), Coerce(values[0].1);
      ReplaceAllAroundPlaceholder(a, b, u, values[0].0, v);
      UnknownPlaceholderSurvives(ReplaceAll(a, p, v), ReplaceAll(b, p, v), u, values[1..]);
    }
  }

  /**
   * A placeholder of the j-th key is untouched by the passes before j, becomes the
   * j-th value in pass j, and that value is then seen by the passes after j.
   */
  lemma {:induction false} KnownPlaceholderReplaced(a: string, b: string, values: seq<(string, Value)>, j: nat)
    requires PlainKeys(values) && DistinctKeys(values)
    requires j < |values|
    ensures Substituted(a + Placeholder(values[j].0) + b, values)
         == Substituted(Substituted(a, values[..j + 1]) + Coerce(values[j].1) + Substituted(b, values[..j + 1]), values[j + 1..])
    decreases j
  {
    var k0, v0 := values[0].0, Coerce(values[0].1);
    var p0 := Placeholder(k0);
    ReplaceAllAroundPlaceholder(a, b, values[j].0, k0, v0);
    var a', b' := ReplaceAll(a, p0, v0), ReplaceAll(b, p0, v0);
    if j == 0 {
      assert values[..1][1..] == [];
    } else {
      var rest := values[1..];
      assert rest[j - 1] == values[j];
      KnownPlaceholderReplaced(a', b', rest, j - 1);
      assert values[..j + 1][1..] == rest[..j];
      assert rest[j..] == values[j + 1..];
    }
  }

  /** Replacing a pattern by itself changes nothing. */
  lemma {:induction false} ReplaceAllByItself(s: string, p: string)
    requires p != []
    ensures ReplaceAll(s, p, p) == s
    decreases |s|
  {
    if |s| >= |p| {
      if s[..|p|] == p {
        ReplaceAllByItself(s[|p|..], p);
        assert s == p + s[|p|..];
      } else {
        ReplaceAllByItself(s[1..], p);
        assert s == [s[0]] + s[1..];
      }
    }
  }

  /** Passes whose values are their own placeholders leave every text unchanged. */
  lemma {:induction false} SelfValuesUnchanged(text: string, values: seq<(string, Value)>)
    requires forall i :: 0 <= i < |values| ==> Coerce(values[i].1) == Placeholder(values[i].0)
    ensures Substituted(text, values) == text
    decreases |values|
  {
    if values != [] {
      ReplaceAllByItself(text, Placeholder(values[0].0));
      SelfValuesUnchanged(text, values[1..]);
    }
  }

  /** A key's placeholder on its own renders to that key's value, when the value has no `{`. */
  lemma PlaceholderRendersToValue(values: seq<(string, Value)>, j: nat)
    requires PlainKeys(values) && DistinctKeys(values)
    requires j < |values|
    requires forall i :: 0 <= i < |Coerce(values[j].1)| ==> Coerce(values[j].1)[i] != '{'
    ensures Substituted(Placeholder(values[j].0), values) == Coerce(values[j].1)
  {
    var c := Coerce(values[j].1);
    var q := Placeholder(values[j].0);
    var rest := values[j + 1..];
    assert Substituted(q, values) == Substituted(c, rest) by {
      KnownPlaceholderReplaced([], [], values, j);
      assert [] + q + [] == q;
      BraceFreeUnchanged([], values[..j + 1]);
      assert [] + c + [] == c;
    }
    forall i | 0 <= i < |rest| ensures PlainKey(rest[i].0) {
      assert rest[i] == values[j + 1 + i];
    }
    BraceFreeUnchanged(c, rest);
  }

  /** A template with no `{` at all is returned unchanged, whatever the values. */
  lemma {:induction false} BraceFreeUnchanged(text: string, values: seq<(string, Value)>)
    requires forall i :: 0 <= i < |text| ==> text[i] != '{'
    requires PlainKeys(values)
    ensures Substituted(text, values) == text
    decreases |values|
  {
    if values != [] {
      var p := Placeholder(values[0].0);
      PlaceholderShape(values[0].0);
      forall i: nat ensures !OccursAt(text, p, i) {
        if i + |p| <= |text| {
          assert text[i..i + |p|][0] == text[i];
        }
      }
      ReplaceAllAbsent(text, p, Coerce(values[0].1));
      BraceFreeUnchanged(text, values[1..]);
    }
  }

  /**
   * Passes are sequential: a value that itself holds the placeholder of a later key
   * is substituted again by that later pass.
   */
  lemma ChainedSubstitution(k1: string, k2: string, w: string)
    requires PlainKey(k1) && PlainKey(k2) && k1 != k2
    ensures Substituted(Placeholder(k1), [(k1, Text(Placeholder(k2))), (k2, Text(w))]) == w
  {
    var p1, p2 := Placeholder(k1), Placeholder(k2);
    var values := [(k1, Text(p2)), (k2, Text(w))];
    ReplaceAllSelf(p1, p2);
    assert values[1..] == [(k2, Text(w))];
    assert Substituted(p1, values) == Substituted(p2, [(k2, Text(w))]);
    ReplaceAllSelf(p2, w);
    assert Substituted(p2, [(k2, Text(w))]) == Substituted(w, []);
  }

  /**
   * Every occurrence of a key's placeholder is replaced, not only the first: a text
   * made of brace-free pieces separated by the placeholder renders to the same
   * pieces separated by the value.
   */
  lemma EveryOccurrenceReplaced(k: string, v: Value, pieces: seq<string>)
    requires PlainKey(k)
    requires forall j, i :: 0 <= j < |pieces| && 0 <= i < |pieces[j]| ==> pieces[j][i] != '{'
    ensures Substituted(Join(pieces, Placeholder(k)), [(k, v)]) == Join(pieces, Coerce(v))
  {
    var values := [(k, v)];
    assert values[1..] == [];
    JoinedPiecesReplaced(k, Coerce(v), pieces);
  }

  lemma {:induction false} JoinedPiecesReplaced(k: string, c: string, pieces: seq<string>)
    requires PlainKey(k)
    requires forall j, i :: 0 <= j < |pieces| && 0 <= i < |pieces[j]| ==> pieces[j][i] != '{'
    ensures ReplaceAll(Join(pieces, Placeholder(k)), Placeholder(k), c) == Join(pieces, c)
    decreases |pieces|
  {
    var p := Placeholder(k);
    PlaceholderShape(k);
    if |pieces| == 1 {
      BraceFreeReplaced(pieces[0], k, c);
    } else if |pieces| > 1 {
      var rest := pieces[1..];
      assert Join(pieces, p) == pieces[0] + p + Join(rest, p);
      ReplaceAllAroundPlaceholder(pieces[0], Join(rest, p), k, k, c);
      BraceFreeReplaced(pieces[0], k, c);
      assert forall j, i :: 0 <= j < |rest| && 0 <= i < |rest[j]| ==> rest[j][i] == pieces[j + 1][i];
      JoinedPiecesReplaced(k, c, rest);
    }
  }

  /** One pass leaves a brace-free text unchanged. */
  lemma BraceFreeReplaced(text: string, k: string, c: string)
    requires PlainKey(k)
    requires forall i :: 0 <= i < |text| ==> text[i] != '{'
    ensures ReplaceAll(text, Placeholder(k), c) == text
  {
    BraceFreeUnchanged(text, [(k, Text(c))]);
    assert [(k, Text(c))][1..] == [];
  }
}
