/**
 The subset of Python's `str.format` that the index builder relies on: a
 template whose replacement fields are all automatically numbered (`{}`),
 filled from a list of positional string arguments. `{{` and `}}` stand for
 literal braces. Any other use of a brace is rejected, as is a template with
 more fields than arguments; surplus arguments are ignored, as in Python.
 */
module PyFormat {

  import opened Wrappers

  /** Prepends `s` to a formatted result, keeping a failure a failure. */
  function Prepend(s: string, o: Option<string>): Option<string>
  {
    match o
    case None => None
    case Some(v) => Some(s + v)
  }

  /** True when `s` holds no brace, so that `Format` copies it verbatim. */
  predicate NoBraces(s: string)
  {
    forall i :: 0 <= i < |s| ==> s[i] != '{' && s[i] != '}'
  }

  /**
   Formats `template` with the positional `args`. `None` stands for the
   exception Python raises: an `IndexError` when the fields outnumber the
   arguments, a `ValueError` for a single brace. Named, numbered and
   format-spec fields are outside this subset and are rejected too.
   */
  function Format(template: string, args: seq<string>): (r: Option<string>)
    ensures NoBraces(template) ==> r == Some(template)
    decreases |template|
  {
    if template == [] then Some([])
    else if |template| >= 2 && template[0] == '{' && template[1] == '{' then
      Prepend("{", Format(template[2..], args))
    else if |template| >= 2 && template[0] == '}' && template[1] == '}' then
      Prepend("}", Format(template[2..], args))
    else if |template| >= 2 && template[0] == '{' && template[1] == '}' then
      if args == [] then None else Prepend(args[0], Format(template[2..], args[1..]))
    else if template[0] == '{' || template[0] == '}' then None
    else
      var tail := template[1..];
      assert forall i :: 0 <= i < |tail| ==> tail[i] == template[i + 1];
      assert [template[0]] + tail == template;
      Prepend([template[0]], Format(tail, args))
  }

  /** Text without braces is copied to the output unchanged. */
  lemma {:induction false} FormatLiteral(lit: string, rest: string, args: seq<string>)
    requires NoBraces(lit)
    ensures Format(lit + rest, args) == Prepend(lit, Format(rest, args))
  {
    if lit != [] {
      assert (lit + rest)[1..] == lit[1..] + rest;
      assert NoBraces(lit[1..]) by {
        forall i | 0 <= i < |lit[1..]| ensures lit[1..][i] != '{' && lit[1..][i] != '}' {
          assert lit[1..][i] == lit[i + 1];
        }
      }
      FormatLiteral(lit[1..], rest, args);
      var t := lit + rest;
      assert t[0] == lit[0] && t[0] != '{' && t[0] != '}';
      assert Format(t, args) == Prepend([lit[0]], Format(t[1..], args));
      PrependTwice([lit[0]], lit[1..], Format(rest, args));
      assert [lit[0]] + lit[1..] == lit;
    } else {
      assert lit + rest == rest;
      var o := Format(rest, args);
      if o.Some? {
        assert lit + o.value == o.value;
      }
    }
  }

  lemma PrependTwice(s: string, t: string, o: Option<string>)
    ensures Prepend(s, Prepend(t, o)) == Prepend(s + t, o)
  {
    if o.Some? {
      assert s + (t + o.value) == (s + t) + o.value;
    }
  }

  /** A literal followed by a `{}` field consumes exactly one argument. */
  lemma FormatLiteralThenField(lit: string, rest: string, a: string, args: seq<string>)
    requires NoBraces(lit)
    ensures Format(lit + "{}" + rest, [a] + args) == Prepend(lit + a, Format(rest, args))
  {
    assert lit + "{}" + rest == lit + ("{}" + rest);
    FormatLiteral(lit, "{}" + rest, [a] + args);
    assert ("{}" + rest)[2..] == rest;
    assert ([a] + args)[1..] == args;
    assert Format("{}" + rest, [a] + args) == Prepend(a, Format(rest, args));
    PrependTwice(lit, a, Format(rest, args));
  }

  /** A template of two fields between literal texts takes two arguments in order. */
  lemma FormatTwoFields(p: string, q: string, a: string, b: string)
    requires NoBraces(p) && NoBraces(q)
    ensures Format(p + "{}" + q + "{}", [a, b]) == Some(p + a + q + b)
  {
    assert p + "{}" + q + "{}" == p + "{}" + (q + "{}" + []);
    assert [a, b] == [a] + [b] && [b] == [b] + [];
    FormatLiteralThenField(p, q + "{}" + [], a, [b]);
    FormatLiteralThenField(q, [], b, []);
    PrependTwice(p + a, q + b, Some([]));
    assert p + a + (q + b) + [] == p + a + q + b;
  }

  /** A template of three fields between literal texts takes three arguments in order. */
  lemma FormatThreeFields(p: string, q: string, t: string, a: string, b: string, c: string)
    requires NoBraces(p) && NoBraces(q) && NoBraces(t)
    ensures Format(p + "{}" + q + "{}" + t + "{}", [a, b, c]) == Some(p + a + q + b + t + c)
  {
    assert p + "{}" + q + "{}" + t + "{}" == p + "{}" + (q + "{}" + t + "{}");
    assert [a, b, c] == [a] + [b, c];
    FormatLiteralThenField(p, q + "{}" + t + "{}", a, [b, c]);
    FormatTwoFields(q, t, b, c);
    assert p + a + (q + b + t + c) == p + a + q + b + t + c;
  }
}
