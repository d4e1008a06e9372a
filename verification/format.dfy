/** Python's `str.format` restricted to keyword arguments whose values are strings,
    which is how every prompt of the agent is filled in.

    A format string is parsed into a `Template`: a sequence of literal characters and
    replacement fields. `Parse` is a simplification of the scanner of the Python runtime
    that agrees with it on plain field names: `{{` and `}}` are escaped braces, a lone `}`
    or a `{` at the very end is an error, and a field runs from `{` to the next `}`, its
    name ending at the first `:` (the rest is the format spec). A name holding a
    conversion (`!`), an index (`[`, `]`) or an attribute (`.`) is rejected as not
    modelled, since there the runtime's scanner reads the field differently. Rendering walks the template left to right and fails at the first field it
    cannot fill, so the error reported is the one for the leftmost bad field. */
module Format {
  import opened Results

  /** One element of a parsed format string. */
  datatype Part = Chr(c: char) | Field(name: string, spec: string)

  type Template = seq<Part>

  datatype FormatError =
    | SingleOpen                    // "Single '{' encountered in format string"
    | SingleClose                   // "Single '}' encountered in format string"
    | UnclosedField                 // a ValueError for a field that no `}` closes; its wording depends on what follows the `{`
    | NestedField                   // a `{` inside a replacement field
    | FieldNameNotModelled(name: string) // a name with a conversion, an index or an attribute
    | PositionalField(name: string) // `{}` or `{0}`: no positional arguments are given
    | MissingKey(name: string)      // KeyError: the keyword was not supplied
    | SpecNotModelled(name: string) // a non-empty format spec

  /** The literal text `s`, one part per character. */
  function Lits(s: string): Template {
    seq(|s|, i requires 0 <= i < |s| => Chr(s[i]))
  }

  /** The names of all replacement fields of `t`. */
  function FieldNames(t: Template): set<string> {
    set i | 0 <= i < |t| && t[i].Field? :: t[i].name
  }

  /** First index of `c` in `s`, or `|s|` when `c` does not occur. */
  function IndexOf(s: string, c: char): (i: nat)
    ensures i <= |s|
    ensures i < |s| ==> s[i] == c
    ensures c !in s[..i]
  {
    if s == [] then 0
    else if s[0] == c then 0
    else
      assert s[..1 + IndexOf(s[1..], c)] == [s[0]] + s[1..][..IndexOf(s[1..], c)];
      1 + IndexOf(s[1..], c)
  }

  lemma IndexOfFirst(a: string, c: char, b: string)
    requires c !in a
    ensures IndexOf(a + [c] + b, c) == |a|
  {
    var s := a + [c] + b;
    assert s[|a|] == c;
    assert s[..|a|] == a;
  }

  /** The text between the braces of a replacement field, split at its first `:`. */
  function SplitField(text: string): Part {
    var k := IndexOf(text, ':');
    if k == |text| then Field(text, "") else Field(text[..k], text[k + 1..])
  }

  function Cons(p: Part, r: Result<Template, FormatError>): Result<Template, FormatError> {
    match r
    case Ok(t) => Ok([p] + t)
    case Err(e) => Err(e)
  }

  /** Parses a format string into its template, or the syntax error Python raises. */
  function Parse(s: string): Result<Template, FormatError>
    decreases |s|
  {
    if s == [] then Ok([])
    else if |s| >= 2 && s[0] == '{' && s[1] == '{' then Cons(Chr('{'), Parse(s[2..]))
    else if |s| >= 2 && s[0] == '}' && s[1] == '}' then Cons(Chr('}'), Parse(s[2..]))
    else if s[0] == '}' then Err(SingleClose)
    else if s[0] == '{' then
      if |s| == 1 then Err(SingleOpen)
      else
        var j := IndexOf(s[1..], '}');
        if j == |s| - 1 then Err(UnclosedField)
        else if '{' in s[1..j + 1] then Err(NestedField)
        else
          var f := SplitField(s[1..j + 1]);
          if !PlainName(f.name) then Err(FieldNameNotModelled(f.name))
          else Cons(f, Parse(s[j + 2..]))
    else Cons(Chr(s[0]), Parse(s[1..]))
  }

  /** The source text of one part: braces are doubled, fields are written `{name}` or `{name:spec}`. */
  function UnparsePart(p: Part): string {
    match p
    case Chr(c) => if c == '{' then "{{" else if c == '}' then "}}" else [c]
    case Field(n, spec) => "{" + n + (if spec == "" then "" else ":" + spec) + "}"
  }

  function Unparse(t: Template): string {
    if t == [] then "" else UnparsePart(t[0]) + Unparse(t[1..])
  }

  /** A field name that is a plain keyword: no conversion, index or attribute. */
  predicate PlainName(n: string) {
    '!' !in n && '[' !in n && ']' !in n && '.' !in n
  }

  /** Plain field names without braces or colons and specs without braces: exactly the
      fields that `Parse` can produce. */
  predicate WellFormedPart(p: Part) {
    p.Field? ==>
      && PlainName(p.name) && '{' !in p.name && '}' !in p.name && ':' !in p.name
      && '{' !in p.spec && '}' !in p.spec
  }

  predicate WellFormed(t: Template) {
    forall i :: 0 <= i < |t| ==> WellFormedPart(t[i])
  }

  /** Every field `Parse` produces is well formed: names hold no brace or colon and
      specs no brace. Together with `ParseUnparse` this makes `WellFormed` exactly the
      set of templates a format string can denote. */
  lemma {:induction false} ParseWellFormed(s: string)
    ensures Parse(s).Ok? ==> WellFormed(Parse(s).value)
    decreases |s|
  {
    if s == [] {
    } else if |s| >= 2 && s[0] == '{' && s[1] == '{' {
      ParseWellFormed(s[2..]);
      ConsWellFormed(Chr('{'), Parse(s[2..]));
    } else if |s| >= 2 && s[0] == '}' && s[1] == '}' {
      ParseWellFormed(s[2..]);
      ConsWellFormed(Chr('}'), Parse(s[2..]));
    } else if s[0] == '}' {
    } else if s[0] == '{' {
      if |s| > 1 {
        var j := IndexOf(s[1..], '}');
        if j < |s| - 1 && '{' !in s[1..j + 1] {
          var text := s[1..j + 1];
          assert text == s[1..][..j];
          if PlainName(SplitField(text).name) {
            SplitFieldWellFormed(text);
            ParseWellFormed(s[j + 2..]);
            ConsWellFormed(SplitField(text), Parse(s[j + 2..]));
          }
        }
      }
    } else {
      ParseWellFormed(s[1..]);
      ConsWellFormed(Chr(s[0]), Parse(s[1..]));
    }
  }

  lemma ConsWellFormed(p: Part, r: Result<Template, FormatError>)
    requires WellFormedPart(p)
    requires r.Ok? ==> WellFormed(r.value)
    ensures Cons(p, r).Ok? ==> WellFormed(Cons(p, r).value)
  {
    if r.Ok? {
      assert forall i :: 0 < i < |[p] + r.value| ==> ([p] + r.value)[i] == r.value[i - 1];
    }
  }

  /** The text between the braces of a field, free of braces, splits into a well-formed
      field: the name stops before the first colon. */
  lemma SplitFieldWellFormed(text: string)
    requires '{' !in text && '}' !in text && PlainName(SplitField(text).name)
    ensures WellFormedPart(SplitField(text))
  {
    var k := IndexOf(text, ':');
    if k < |text| {
      assert forall c :: c in text[..k] ==> c in text;
      assert forall c :: c in text[k + 1..] ==> c in text;
    }
  }

  /** A `}` that is not doubled is an error, whatever brace-free text precedes it. */
  lemma ParseSingleClose(lead: string, rest: string)
    requires '{' !in lead && '}' !in lead
    requires rest == [] || rest[0] != '}'
    ensures Parse(lead + "}" + rest) == Err(SingleClose)
  {
    var s := "}" + rest;
    assert s[0] == '}' && (|s| < 2 || s[1] != '}');
    ParseThroughText(lead, s);
    assert lead + "}" + rest == lead + s;
  }

  /** A `{` as the last character is an error. */
  lemma ParseSingleOpen(lead: string)
    requires '{' !in lead && '}' !in lead
    ensures Parse(lead + "{") == Err(SingleOpen)
  {
    ParseThroughText(lead, "{");
  }

  /** A field that no `}` closes is an error. */
  lemma ParseUnclosed(lead: string, rest: string)
    requires '{' !in lead && '}' !in lead
    requires rest != [] && rest[0] != '{' && '}' !in rest
    ensures Parse(lead + "{" + rest) == Err(UnclosedField)
  {
    var s := "{" + rest;
    assert s[1..] == rest;
    assert IndexOf(rest, '}') == |rest|;
    ParseThroughText(lead, s);
    assert lead + "{" + rest == lead + s;
  }

  /** A `{` between a field's opening brace and its closing `}` is an error: nested
      replacement fields are not expanded. */
  lemma ParseNested(lead: string, a: string, b: string, rest: string)
    requires '{' !in lead && '}' !in lead
    requires a != [] && '{' !in a && '}' !in a && '}' !in b
    ensures Parse(lead + "{" + a + "{" + b + "}" + rest) == Err(NestedField)
  {
    var u := a + "{" + b;
    assert u[0] == a[0] && u[|a|] == '{';
    assert '}' !in u by {
      forall k | 0 <= k < |u| ensures u[k] != '}' {
        if k < |a| { assert u[k] == a[k]; }
        else if k > |a| { assert u[k] == b[k - |a| - 1]; }
      }
    }
    ParseNestedField(u, rest);
    ParseThroughText(lead, "{" + u + "}" + rest);
    assert lead + "{" + a + "{" + b + "}" + rest == lead + ("{" + u + "}" + rest);
  }

  lemma ParseNestedField(u: string, rest: string)
    requires u != [] && u[0] != '{' && '}' !in u && '{' in u
    ensures Parse("{" + u + "}" + rest) == Err(NestedField)
  {
    var s := "{" + u + "}" + rest;
    assert s[1..] == u + ['}'] + rest;
    IndexOfFirst(u, '}', rest);
    assert s[1..|u| + 1] == u;
  }

  /** Brace-free text is copied character by character and does not change how the rest
      parses, including whether it fails. */
  lemma {:induction false} ParseThroughText(lead: string, rest: string)
    requires '{' !in lead && '}' !in lead
    ensures Parse(lead + rest).Err? <==> Parse(rest).Err?
    ensures Parse(rest).Err? ==> Parse(lead + rest) == Parse(rest)
  {
    if lead != [] {
      var s := lead + rest;
      assert s[0] == lead[0] && s[1..] == lead[1..] + rest;
      assert lead[0] != '{' && lead[0] != '}';
      assert lead[1..] == lead[1..];
      assert forall c :: c in lead[1..] ==> c in lead;
      ParseThroughText(lead[1..], rest);
    } else {
      assert lead + rest == rest;
    }
  }

  lemma ParseUnparseChr(c: char, rest: string)
    ensures Parse(UnparsePart(Chr(c)) + rest) == Cons(Chr(c), Parse(rest))
  {
    var s := UnparsePart(Chr(c)) + rest;
    if c == '{' || c == '}' {
      assert s[2..] == rest;
    } else {
      assert s[1..] == rest;
    }
  }

  /** The text between the braces of an unparsed field. */
  function FieldText(n: string, spec: string): string {
    n + (if spec == "" then "" else ":" + spec)
  }

  lemma FieldTextFacts(n: string, spec: string)
    requires WellFormedPart(Field(n, spec))
    ensures UnparsePart(Field(n, spec)) == "{" + FieldText(n, spec) + "}"
    ensures '}' !in FieldText(n, spec) && '{' !in FieldText(n, spec)
    ensures SplitField(FieldText(n, spec)) == Field(n, spec)
  {
    FieldTextBraceFree(n, spec);
    SplitFieldText(n, spec);
  }

  lemma FieldTextBraceFree(n: string, spec: string)
    requires '{' !in n && '}' !in n && '{' !in spec && '}' !in spec
    ensures '}' !in FieldText(n, spec) && '{' !in FieldText(n, spec)
  {
    var text := FieldText(n, spec);
    if spec != "" {
      forall k | 0 <= k < |text| ensures text[k] != '{' && text[k] != '}' {
        if k < |n| {
          assert text[k] == n[k];
        } else if k > |n| {
          assert text[k] == spec[k - |n| - 1];
        }
      }
    }
  }

  lemma SplitFieldText(n: string, spec: string)
    requires ':' !in n
    ensures SplitField(FieldText(n, spec)) == Field(n, spec)
  {
    var text := FieldText(n, spec);
    if spec == "" {
      assert text == n;
    } else {
      IndexOfFirst(n, ':', spec);
      assert text == n + [':'] + spec;
      assert text[..|n|] == n;
      assert text[|n| + 1..] == spec;
    }
  }

  /** Where the field's closing brace is found when a field is followed by `rest`. */
  lemma FieldCloses(text: string, rest: string)
    requires '}' !in text && '{' !in text
    ensures var s := "{" + text + "}" + rest;
            && |s| >= 2 && s[0] == '{' && s[1] != '{'
            && IndexOf(s[1..], '}') == |text|
            && s[1..|text| + 1] == text
            && s[|text| + 2..] == rest
  {
    var s := "{" + text + "}" + rest;
    assert s[1..] == text + ['}'] + rest;
    assert s[1] == (text + ['}'])[0];
    IndexOfFirst(text, '}', rest);
  }

  /** One step of `Parse` at the opening brace of a field. */
  lemma ParseFieldStep(s: string, j: nat)
    requires |s| >= 2 && s[0] == '{' && s[1] != '{'
    requires j == IndexOf(s[1..], '}') && j < |s| - 1 && '{' !in s[1..j + 1]
    requires PlainName(SplitField(s[1..j + 1]).name)
    ensures Parse(s) == Cons(SplitField(s[1..j + 1]), Parse(s[j + 2..]))
  {
  }

  lemma ParseUnparseField(n: string, spec: string, rest: string)
    requires WellFormedPart(Field(n, spec))
    ensures Parse(UnparsePart(Field(n, spec)) + rest) == Cons(Field(n, spec), Parse(rest))
  {
    var text := FieldText(n, spec);
    FieldTextFacts(n, spec);
    FieldCloses(text, rest);
    ParseFieldStep("{" + text + "}" + rest, |text|);
  }

  lemma ParseUnparsePart(p: Part, rest: string)
    requires WellFormedPart(p)
    ensures Parse(UnparsePart(p) + rest) == Cons(p, Parse(rest))
  {
    match p
    case Chr(c) => ParseUnparseChr(c, rest);
    case Field(n, spec) => ParseUnparseField(n, spec, rest);
  }

  /** The source text of a well-formed template parses back to the template. */
  lemma {:induction false} ParseUnparse(t: Template)
    requires WellFormed(t)
    ensures Parse(Unparse(t)) == Ok(t)
  {
    if t != [] {
      assert WellFormedPart(t[0]);
      ParseUnparsePart(t[0], Unparse(t[1..]));
      assert WellFormed(t[1..]) by {
        forall i | 0 <= i < |t[1..]| ensures WellFormedPart(t[1..][i]) {
          assert t[1..][i] == t[i + 1];
        }
      }
      ParseUnparse(t[1..]);
      assert [t[0]] + t[1..] == t;
    }
  }

  /** Python takes an empty field name, or one made only of digits, as an index into
      the positional arguments. */
  predicate IsPositional(name: string) {
    forall k :: 0 <= k < |name| ==> '0' <= name[k] <= '9'
  }

  /** A field that rendering with `args` can fill. */
  predicate Fillable(p: Part, args: map<string, string>) {
    p.Field? ==> !IsPositional(p.name) && p.name in args && p.spec == ""
  }

  predicate Renderable(t: Template, args: map<string, string>) {
    forall i :: 0 <= i < |t| ==> Fillable(t[i], args)
  }

  /** The error Python raises for a field it cannot fill: the argument lookup comes first,
      the format spec is applied afterwards. */
  function FieldError(p: Part, args: map<string, string>): FormatError
    requires p.Field?
  {
    if IsPositional(p.name) then PositionalField(p.name)
    else if p.name !in args then MissingKey(p.name)
    else SpecNotModelled(p.name)
  }

  function PrependText(s: string, r: Result<string, FormatError>): Result<string, FormatError> {
    match r
    case Ok(x) => Ok(s + x)
    case Err(e) => Err(e)
  }

  /** `template.format(**args)`. Substituted values are copied verbatim: they are never
      scanned for braces again. */
  function Render(t: Template, args: map<string, string>): (r: Result<string, FormatError>)
    ensures r.Ok? <==> Renderable(t, args)
  {
    if t == [] then Ok("")
    else
      var rest := Render(t[1..], args);
      assert Renderable(t, args) <==> Fillable(t[0], args) && Renderable(t[1..], args) by {
        if Fillable(t[0], args) && Renderable(t[1..], args) {
          forall i | 0 <= i < |t| ensures Fillable(t[i], args) {
            if i > 0 { assert t[i] == t[1..][i - 1]; }
          }
        }
      }
      match t[0]
      case Chr(c) => PrependText([c], rest)
      case Field(n, spec) =>
        if !Fillable(t[0], args) then Err(FieldError(t[0], args))
        else PrependText(args[n], rest)
  }

  /** Joining two results the way a left-to-right renderer does: the left error wins. */
  function Join(a: Result<string, FormatError>, b: Result<string, FormatError>): Result<string, FormatError> {
    match a
    case Err(e) => Err(e)
    case Ok(x) => PrependText(x, b)
  }

  /** Rendering a concatenation renders the left part first. */
  lemma {:induction false} RenderConcat(a: Template, b: Template, args: map<string, string>)
    ensures Render(a + b, args) == Join(Render(a, args), Render(b, args))
  {
    if a == [] {
      assert a + b == b;
      match Render(b, args)
      case Ok(x) => assert "" + x == x;
      case Err(_) =>
    } else {
      assert (a + b)[1..] == a[1..] + b;
      assert (a + b)[0] == a[0];
      RenderConcat(a[1..], b, args);
      match Render(a[1..], args)
      case Err(_) =>
      case Ok(x) =>
        match Render(b, args)
        case Err(_) =>
        case Ok(y) =>
          match a[0]
          case Chr(c) => assert [c] + (x + y) == ([c] + x) + y;
          case Field(n, _) =>
            if Fillable(a[0], args) {
              assert args[n] + (x + y) == (args[n] + x) + y;
            }
    }
  }

  /** Literal text renders to itself whatever the arguments. */
  lemma {:induction false} RenderLits(s: string, args: map<string, string>)
    ensures Render(Lits(s), args) == Ok(s)
  {
    if s != [] {
      assert Lits(s)[1..] == Lits(s[1..]);
      RenderLits(s[1..], args);
      assert [s[0]] + s[1..] == s;
    }
  }

  lemma LitsFieldNames(s: string)
    ensures FieldNames(Lits(s)) == {}
  {
  }

  lemma FieldNamesSingle(n: string, spec: string)
    ensures FieldNames([Field(n, spec)]) == {n}
  {
    assert [Field(n, spec)][0].name == n;
  }

  lemma FieldNamesConcat(a: Template, b: Template)
    ensures FieldNames(a + b) == FieldNames(a) + FieldNames(b)
  {
    forall n | n in FieldNames(a + b) ensures n in FieldNames(a) + FieldNames(b) {
      var i :| 0 <= i < |a + b| && (a + b)[i].Field? && (a + b)[i].name == n;
      if i >= |a| { assert (a + b)[i] == b[i - |a|]; }
    }
    forall n | n in FieldNames(a) + FieldNames(b) ensures n in FieldNames(a + b) {
      if n in FieldNames(b) {
        var i :| 0 <= i < |b| && b[i].Field? && b[i].name == n;
        assert (a + b)[|a| + i] == b[i];
      } else {
        var i :| 0 <= i < |a| && a[i].Field? && a[i].name == n;
        assert (a + b)[i] == a[i];
      }
    }
  }

  /** A field with an empty spec renders to its argument, verbatim. */
  lemma RenderField(n: string, args: map<string, string>)
    requires n in args && !IsPositional(n)
    ensures Render([Field(n, "")], args) == Ok(args[n])
  {
    assert [Field(n, "")][1..] == [];
    assert args[n] + "" == args[n];
  }

  /** Rendering fails with the error of the leftmost field it cannot fill, as the
      `KeyError` of the first missing keyword in Python. */
  lemma {:induction false} RenderFailsAtFirstBadField(t: Template, args: map<string, string>, i: nat)
    requires i < |t| && !Fillable(t[i], args)
    requires forall k :: 0 <= k < i ==> Fillable(t[k], args)
    ensures Render(t, args) == Err(FieldError(t[i], args))
  {
    if i > 0 {
      assert forall k :: 0 <= k < i - 1 ==> t[1..][k] == t[k + 1];
      RenderFailsAtFirstBadField(t[1..], args, i - 1);
      assert Fillable(t[0], args);
    }
  }

  /** A successful rendering of a template that ends with a plain field ends with the
      value of that field. */
  lemma RenderEndsWithLastField(t: Template, n: string, args: map<string, string>)
    requires |t| > 0 && t[|t| - 1] == Field(n, "")
    requires Render(t, args).Ok?
    ensures n in args
    ensures var r := Render(t, args).value; |args[n]| <= |r| && r[|r| - |args[n]|..] == args[n]
  {
    var front := t[..|t| - 1];
    assert t == front + [Field(n, "")];
    assert Fillable(t[|t| - 1], args);
    RenderConcat(front, [Field(n, "")], args);
    RenderField(n, args);
  }
}
