/** The part of Go's fmt.Sprintf the package uses: formats whose only verb is `%s`,
    each consuming one string operand in order. */
module Format {

  /** Every '%' in the format begins a `%s` verb, and there is one operand per verb. */
  predicate Conforms(format: string, args: seq<string>)
    decreases |format|
  {
    if format == [] then args == []
    else if format[0] == '%' then |format| >= 2 && format[1] == 's' && args != [] && Conforms(format[2..], args[1..])
    else Conforms(format[1..], args)
  }

  function TotalLength(args: seq<string>): nat {
    if args == [] then 0 else |args[0]| + TotalLength(args[1..])
  }

  /** fmt.Sprintf(format, args...): literal text is copied, each `%s` is replaced by the
      next operand. */
  function Sprintf(format: string, args: seq<string>): (r: string)
    requires Conforms(format, args)
    ensures |r| == |format| - 2 * |args| + TotalLength(args)
    decreases |format|
  {
    if format == [] then ""
    else if format[0] == '%' then args[0] + Sprintf(format[2..], args[1..])
    else [format[0]] + Sprintf(format[1..], args)
  }

  /** Literal text ahead of the rest of a format is copied to the output unchanged. */
  lemma {:induction false} SprintfLiteral(lit: string, rest: string, args: seq<string>)
    requires '%' !in lit
    requires Conforms(rest, args)
    ensures Conforms(lit + rest, args)
    ensures Sprintf(lit + rest, args) == lit + Sprintf(rest, args)
  {
    if lit != [] {
      assert (lit + rest)[1..] == lit[1..] + rest;
      SprintfLiteral(lit[1..], rest, args);
    } else {
      assert lit + rest == rest;
    }
  }

  /** A leading `%s` is replaced by the first operand. */
  lemma SprintfVerb(rest: string, arg: string, args: seq<string>)
    requires Conforms(rest, args)
    ensures Conforms("%s" + rest, [arg] + args)
    ensures Sprintf("%s" + rest, [arg] + args) == arg + Sprintf(rest, args)
  {
    assert ("%s" + rest)[2..] == rest;
    assert ([arg] + args)[1..] == args;
  }

  /** A format of four `%s` verbs, each preceded by verb-free text, puts the four operands
      in place of the verbs. */
  lemma {:induction false} SprintfFourVerbs(p: string, a: string, b: string, c: string,
                                            w: string, x: string, y: string, z: string)
    requires '%' !in p && '%' !in a && '%' !in b && '%' !in c
    ensures Conforms(p + ("%s" + (a + ("%s" + (b + ("%s" + (c + "%s")))))), [w, x, y, z])
    ensures Sprintf(p + ("%s" + (a + ("%s" + (b + ("%s" + (c + "%s")))))), [w, x, y, z])
            == p + w + a + x + b + y + c + z
  {
    var v := "%s";
    SprintfVerb("", z, []);
    assert v + "" == v;
    SprintfLiteral(c, v, [z]);
    SprintfVerb(c + v, y, [z]);
    SprintfLiteral(b, v + (c + v), [y, z]);
    SprintfVerb(b + (v + (c + v)), x, [y, z]);
    SprintfLiteral(a, v + (b + (v + (c + v))), [x, y, z]);
    SprintfVerb(a + (v + (b + (v + (c + v)))), w, [x, y, z]);
    SprintfLiteral(p, v + (a + (v + (b + (v + (c + v))))), [w, x, y, z]);
    // Regroup the right-nested concatenation Sprintf produces into the left-nested one stated.
    calc {
      p + (w + (a + (x + (b + (y + (c + z))))));
      (p + w) + (a + (x + (b + (y + (c + z)))));
      (p + w + a) + (x + (b + (y + (c + z))));
      (p + w + a + x) + (b + (y + (c + z)));
      (p + w + a + x + b) + (y + (c + z));
      (p + w + a + x + b + y) + (c + z);
      p + w + a + x + b + y + c + z;
    }
  }
}
