/**
 * The part of Python's `str.format` that the endpoint functions rely on: a
 * template whose replacement fields are keyword names, `{name}`, filled from the
 * keyword arguments. `{{` and `}}` stand for single braces. A lone brace, a field
 * that never closes, a field name holding `{`, an empty field name (a positional
 * field, for which no positional argument is ever given) or a name without a
 * keyword argument makes `format` raise; here it gives `None`.
 */
module Template {

  import opened Wrappers

  predicate IsBrace(c: char)
  {
    c == '{' || c == '}'
  }

  /** Text that `format` copies through unchanged. */
  predicate Plain(s: string)
  {
    forall i | 0 <= i < |s| :: !IsBrace(s[i])
  }

  function Prepend(prefix: string, r: Option<string>): Option<string>
  {
    match r
    case None => None
    case Some(rest) => Some(prefix + rest)
  }

  /** `template.format(**args)` for templates built from named fields. */
  function Format(template: string, args: map<string, string>): (r: Option<string>)
    ensures Plain(template) ==> r == Some(template)
    decreases |template|, 1
  {
    if template == [] then Some("")
    else if template[0] == '{' then
      if |template| > 1 && template[1] == '{' then Prepend("{", Format(template[2..], args))
      else Field(template[1..], "", args)
    else if template[0] == '}' then
      if |template| > 1 && template[1] == '}' then Prepend("}", Format(template[2..], args))
      else None
    else
      assert Plain(template) ==> Plain(template[1..]);
      assert [template[0]] + template[1..] == template;
      Prepend([template[0]], Format(template[1..], args))
  }

  /**
   * The rest of a replacement field, `name` being the part of its name read so
   * far: at `}` the field is replaced by its keyword argument and formatting
   * resumes after it.
   */
  function Field(template: string, name: string, args: map<string, string>): (r: Option<string>)
    ensures '}' !in template ==> r.None?
    decreases |template|, 0
  {
    if template == [] then None
    else if template[0] == '}' then
      if name == [] || name !in args then None
      else Prepend(args[name], Format(template[1..], args))
    else if template[0] == '{' then None
    else Field(template[1..], name + [template[0]], args)
  }

  lemma {:induction false} PrependTwice(a: string, b: string, r: Option<string>)
    ensures Prepend(a, Prepend(b, r)) == Prepend(a + b, r)
  {
    if r.Some? {
      assert a + (b + r.value) == (a + b) + r.value;
    }
  }

  /** Text without braces is copied through ahead of whatever follows it. */
  lemma {:induction false} FormatPlain(s: string, rest: string, args: map<string, string>)
    requires Plain(s)
    ensures Format(s + rest, args) == Prepend(s, Format(rest, args))
  {
    if s == [] {
      assert s + rest == rest;
      var r := Format(rest, args);
      if r.Some? {
        assert s + r.value == r.value;
      }
    } else {
      var t := s + rest;
      assert t[0] == s[0] && t[1..] == s[1..] + rest;
      assert !IsBrace(s[0]);
      assert Format(t, args) == Prepend([s[0]], Format(s[1..] + rest, args));
      FormatPlain(s[1..], rest, args);
      PrependTwice([s[0]], s[1..], Format(rest, args));
      assert [s[0]] + s[1..] == s;
    }
  }

  /** Reading a brace-free field name up to its `}` looks up the whole name. */
  lemma {:induction false} FieldName(read: string, rest: string, after: string, args: map<string, string>)
    requires Plain(rest)
    ensures Field(rest + "}" + after, read, args) ==
      if read + rest == [] || read + rest !in args then None
      else Prepend(args[read + rest], Format(after, args))
    decreases rest
  {
    var t := rest + "}" + after;
    if rest == [] {
      assert t == "}" + after && t[1..] == after;
      assert read + rest == read;
    } else {
      assert t[0] == rest[0] && !IsBrace(rest[0]);
      assert t[1..] == rest[1..] + "}" + after;
      FieldName(read + [rest[0]], rest[1..], after, args);
      assert read + [rest[0]] + rest[1..] == read + rest;
    }
  }

  /** A named field is replaced by its keyword argument, inserted verbatim. */
  lemma {:induction false} FormatField(name: string, rest: string, args: map<string, string>)
    requires name != [] && Plain(name) && name in args
    ensures Format("{" + name + "}" + rest, args) == Prepend(args[name], Format(rest, args))
  {
    var t := "{" + name + "}" + rest;
    assert t[0] == '{' && t[1] == name[0] && !IsBrace(name[0]);
    assert t[1..] == name + "}" + rest;
    FieldName("", name, rest, args);
    assert "" + name == name;
  }

  /** A template with one field between two brace-free texts. */
  lemma {:induction false} FormatOneField(before: string, name: string, after: string, args: map<string, string>)
    requires Plain(before) && Plain(after)
    requires name != [] && Plain(name) && name in args
    ensures Format(before + "{" + name + "}" + after, args) == Some(before + args[name] + after)
  {
    var field := "{" + name + "}" + after;
    FormatPlain(after, "", args);
    assert after + "" == after;
    FormatField(name, after, args);
    assert Format(field, args) == Some(args[name] + after);
    assert before + "{" + name + "}" + after == before + field;
    FormatPlain(before, field, args);
    assert before + (args[name] + after) == before + args[name] + after;
  }

  lemma Reassociate(a: string, b: string, c: string, d: string)
    ensures a + (b + (c + d)) == a + b + c + d
  {
  }

  /** A template with two fields, the second one last: the shape of an enrollment's own URL. */
  lemma {:induction false} FormatTwoFields(before: string, first: string, middle: string, second: string, args: map<string, string>)
    requires Plain(before) && Plain(middle)
    requires first != [] && Plain(first) && first in args
    requires second != [] && Plain(second) && second in args
    ensures Format(before + ("{" + first + "}" + (middle + ("{" + second + "}"))), args)
         == Some(before + (args[first] + (middle + args[second])))
  {
    var open1, open2 := "{" + first + "}", "{" + second + "}";
    FormatField(second, "", args);
    assert open2 + "" == open2;
    assert Format(open2, args) == Some(args[second] + "");
    assert args[second] + "" == args[second];
    FormatPlain(middle, open2, args);
    FormatField(first, middle + open2, args);
    FormatPlain(before, open1 + (middle + open2), args);
  }
}
