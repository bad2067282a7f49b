/** The language-generation `Template` record (botbuilder-lg) and its one-line display form
    `[name(p1, p2)]"body"`.  `Decode` reads that form back; for templates whose name and
    parameters cannot be confused with the punctuation, the display form determines the template. */
module LgTemplate {
  import opened Wrappers
  import opened Strings

  /** Where a template sits in its file; its structure is not part of this model. */
  type SourceRange

  /** The display form's separator between parameters. */
  const Separator := ", "

  /** The three parts of a template that its display form shows. */
  datatype Parts = Parts(name: string, parameters: seq<string>, body: string)

  /** A parameter the display form can delimit: non-empty, with no comma or closing parenthesis. */
  predicate ValidParameter(p: string) {
    p != [] && ',' !in p && ')' !in p
  }

  /** A name and parameter list the display form can delimit. */
  predicate Delimitable(name: string, parameters: seq<string>) {
    '(' !in name && ')' !in name && forall i :: 0 <= i < |parameters| ==> ValidParameter(parameters[i])
  }

  /** The display form `[name(p1, p2)]"body"`.  The body is inserted verbatim: a `"` inside it is
      not escaped. */
  function Render(name: string, parameters: seq<string>, body: string): (r: string)
    ensures |parameters| == 0 ==> r == "[" + name + "()]\"" + body + "\""
    ensures |parameters| == 1 ==> r == "[" + name + "(" + parameters[0] + ")]\"" + body + "\""
    ensures |r| >= |body| + 1 && r[|r| - |body| - 1..|r| - 1] == body
    ensures Delimitable(name, parameters) ==> Decode(r) == Some(Parts(name, parameters, body))
  {
    var r := "[" + name + "(" + Join(parameters, Separator) + ")]\"" + body + "\"";
    assert r[|r| - |body| - 1..|r| - 1] == body;
    if Delimitable(name, parameters) then DecodeRender(name, parameters, body); r else r
  }

  /** The parameter list of a display form: the pieces between `, ` separators. */
  function SplitParameters(s: string): seq<string>
    decreases |s|
  {
    if s == [] then []
    else
      match IndexOf(s, ',')
      case None => [s]
      case Some(i) => [s[..i]] + SplitParameters(s[if i + 2 <= |s| then i + 2 else |s|..])
  }

  /** Reads a display form back into its parts, or `None` when `s` is not of that shape. */
  function Decode(s: string): Option<Parts> {
    if |s| < 2 || s[0] != '[' || s[|s| - 1] != '"' then None
    else
      match IndexOf(s, '(')
      case None => None
      case Some(i) =>
        match IndexOf(s, ')')
        case None => None
        case Some(j) => DecodeBetween(s, i, j)
  }

  /** The parts of a display form whose first `(` is at `i` and first `)` at `j`. */
  function DecodeBetween(s: string, i: nat, j: nat): Option<Parts> {
    if 1 <= i < j && j + 3 <= |s| - 1 && s[j + 1] == ']' && s[j + 2] == '"' then
      Some(Parts(s[1..i], SplitParameters(s[i + 1..j]), s[j + 3..|s| - 1]))
    else None
  }

  /** Splitting a joined list of valid parameters gives the list back. */
  lemma {:induction false} SplitJoin(parameters: seq<string>)
    requires forall i :: 0 <= i < |parameters| ==> ValidParameter(parameters[i])
    ensures SplitParameters(Join(parameters, Separator)) == parameters
    decreases |parameters|
  {
    if |parameters| == 1 {
      assert IndexOf(parameters[0], ',').None?;
    } else if |parameters| > 1 {
      var p, rest := parameters[0], parameters[1..];
      assert forall i :: 0 <= i < |rest| ==> rest[i] == parameters[i + 1];
      SplitJoin(rest);
      SplitAfterParameter(p, Join(rest, Separator));
      assert parameters == [p] + rest;
    }
  }

  /** A valid parameter followed by the separator splits off as the first piece. */
  lemma SplitAfterParameter(p: string, rest: string)
    requires ValidParameter(p)
    ensures SplitParameters(p + Separator + rest) == [p] + SplitParameters(rest)
  {
    var s := p + Separator + rest;
    assert s == p + [','] + (" " + rest);
    IndexOfAfter(p, ',', " " + rest);
    assert s[..|p|] == p && s[|p| + 2..] == rest;
  }

  /** The display form of a delimitable template decodes to that template's parts. */
  lemma DecodeRender(name: string, parameters: seq<string>, body: string)
    requires Delimitable(name, parameters)
    ensures Decode("[" + name + "(" + Join(parameters, Separator) + ")]\"" + body + "\"") ==
            Some(Parts(name, parameters, body))
  {
    JoinExcludes(parameters, Separator, ')');
    DecodeDisplayForm(name, Join(parameters, Separator), body);
    SplitJoin(parameters);
  }

  /** A display form whose name has no parentheses and whose parameter text has no closing
      parenthesis decodes to its name, the pieces of its parameter text, and its body. */
  lemma DecodeDisplayForm(name: string, ps: string, body: string)
    requires '(' !in name && ')' !in name && ')' !in ps
    ensures Decode("[" + name + "(" + ps + ")]\"" + body + "\"") ==
            Some(Parts(name, SplitParameters(ps), body))
  {
    DisplayFormIndices(name, ps, body);
    DisplayFormSlices(name, ps, body);
    DecodeFields("[" + name + "(" + ps + ")]\"" + body + "\"", |name| + 1, |name| + 2 + |ps|, name, ps, body);
  }

  /** How `Decode` reads a string whose parentheses sit at `i` and `j` and whose fields are
      `name`, `ps` and `body`. */
  lemma DecodeFields(s: string, i: nat, j: nat, name: string, ps: string, body: string)
    requires |s| >= 2 && s[0] == '[' && s[|s| - 1] == '"'
    requires IndexOf(s, '(') == Some(i) && IndexOf(s, ')') == Some(j)
    requires i < j && j + 3 <= |s| - 1 && s[j + 1] == ']' && s[j + 2] == '"'
    requires s[1..i] == name && s[i + 1..j] == ps && s[j + 3..|s| - 1] == body
    ensures Decode(s) == Some(Parts(name, SplitParameters(ps), body))
  {
  }

  /** Where the two parentheses of a display form sit. */
  lemma DisplayFormIndices(name: string, ps: string, body: string)
    requires '(' !in name && ')' !in name && ')' !in ps
    ensures IndexOf("[" + name + "(" + ps + ")]\"" + body + "\"", '(') == Some(|name| + 1)
    ensures IndexOf("[" + name + "(" + ps + ")]\"" + body + "\"", ')') == Some(|name| + 2 + |ps|)
  {
    var s := "[" + name + "(" + ps + ")]\"" + body + "\"";
    assert s == ("[" + name) + ['('] + (ps + ")]\"" + body + "\"");
    IndexOfAfter("[" + name, '(', ps + ")]\"" + body + "\"");
    assert s == ("[" + name + "(" + ps) + [')'] + ("]\"" + body + "\"");
    IndexOfAfter("[" + name + "(" + ps, ')', "]\"" + body + "\"");
  }

  /** What lies between the punctuation of a display form. */
  lemma DisplayFormSlices(name: string, ps: string, body: string)
    ensures var s := "[" + name + "(" + ps + ")]\"" + body + "\"";
      |s| == |name| + |ps| + |body| + 6 && s[0] == '[' && s[|s| - 1] == '"' &&
      s[1..|name| + 1] == name && s[|name| + 2..|name| + 2 + |ps|] == ps &&
      s[|name| + 3 + |ps|] == ']' && s[|name| + 4 + |ps|] == '"' && s[|name| + 5 + |ps|..|s| - 1] == body
  {
    var a := "[" + name;
    var b := a + "(";
    var c := b + ps;
    var d := c + ")]\"";
    var e := d + body;
    var s := e + "\"";
    assert s[..|e|] == e;
    assert s[..|d|] == e[..|d|] == d;
    assert s[..|c|] == d[..|c|] == c;
    assert s[..|a|] == c[..|a|] == a;
    assert a[1..] == name && c[|b|..] == ps && e[|d|..] == body;
    assert s[|c| + 1] == d[|c| + 1] == ']' && s[|c| + 2] == d[|c| + 2] == '"';
  }

  /** Without the delimitability condition the display form can lose information: no parameters
      and a single empty parameter look the same. */
  lemma EmptyParameterIsInvisible(name: string, body: string)
    ensures Render(name, [], body) == Render(name, [""], body)
  {
  }

  /** A template of an LG file. */
  class Template {
    var name: string
    var parameters: seq<string>
    var body: string
    var sourceRange: SourceRange

    /** A missing or empty name and a missing body become `""`; missing parameters become `[]`. */
    constructor (templateName: Option<string>, parameters: Option<seq<string>>,
                 templateBody: Option<string>, sourceRange: SourceRange)
      ensures name == (if templateName.Some? then templateName.value else "")
      ensures this.parameters == (if parameters.Some? then parameters.value else [])
      ensures this.sourceRange == sourceRange
      ensures body == (if templateBody.Some? then templateBody.value else "")
    {
      name := if templateName.Some? then templateName.value else "";
      this.parameters := if parameters.Some? then parameters.value else [];
      this.sourceRange := sourceRange;
      body := if templateBody.Some? then templateBody.value else "";
    }

    /** `toString`: the display form of this template; it reads the fields and changes none. */
    function ToString(): (r: string)
      reads this
      ensures r == Render(name, parameters, body)
      ensures Delimitable(name, parameters) ==> Decode(r) == Some(Parts(name, parameters, body))
    {
      Render(name, parameters, body)
    }
  }
}
