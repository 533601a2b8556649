/**
 * The resource context: the text tables of context.py and the `Context`
 * wrapper of bot.py, whose attribute lookup fails soft to a diagnostic string
 * and renders a found template by `{name}` placeholder substitution.
 *
 * The caller's local variables, which the wrapper reads from the calling
 * stack frame, are an explicit map from placeholder text to its value here.
 */
module ResourceContext {
  import opened Base

  /** What an attribute of the wrapped object is bound to. */
  datatype Attr =
    | NoneAttr          // bound to Python's None
    | Str(s: string)    // a text template
    | Namespace         // any other object, such as the per-language classes

  /** The two errors string formatting raises. */
  datatype FormatError =
    | KeyError(field: string)   // a placeholder names no supplied value
    | ValueError                // a malformed format string

  /** The diagnostic returned for a missing key. */
  function NotDefined(name: string): (r: string)
    ensures StartsWith(r, "< " + name + " >")
    ensures |r| > |name|
  {
    "< " + name + " > not defined in context."
  }

  /** Python treats an all-digit field such as `{0}` as positional, which `format_map` refuses. */
  predicate Positional(field: string)
  {
    |field| > 0 && forall i | 0 <= i < |field| :: IsDigit(field[i])
  }

  /** A field a template may name: non-empty, no brace, not positional. */
  predicate FieldName(field: string)
  {
    field != [] && '{' !in field && '}' !in field && !Positional(field)
  }

  /** The index of the first `}` in `t` at or after `i`, or `|t|` when there is none. */
  function CloseBrace(t: string, i: nat): (j: nat)
    requires i <= |t|
    ensures i <= j <= |t|
    ensures j < |t| ==> t[j] == '}'
    ensures forall k | i <= k < j :: t[k] != '}'
    decreases |t| - i
  {
    if i == |t| || t[i] == '}' then i else CloseBrace(t, i + 1)
  }

  /** Puts `s` in front of a successful result; passes an error through. */
  function Prepend(s: string, r: Result<string, FormatError>): Result<string, FormatError>
  {
    if r.Ok? then Ok(s + r.value) else r
  }

  /**
   * Python's `str.format_map(values)` for templates whose fields are bare
   * names: `{{` and `}}` stand for single braces, `{field}` is replaced by the
   * value of `field`, a field with no value raises KeyError, and a lone brace,
   * an unterminated field, an empty or all-digit field, or a brace inside a
   * field raises ValueError. Errors are raised from left to right.
   */
  function FormatMap(t: string, values: map<string, string>): (r: Result<string, FormatError>)
    ensures r.Err? && r.error.KeyError? ==> r.error.field !in values && FieldName(r.error.field)
    decreases |t|
  {
    if t == [] then Ok([])
    else if t[0] == '{' then
      if |t| > 1 && t[1] == '{' then Prepend("{", FormatMap(t[2..], values))
      else
        var j := CloseBrace(t, 1);
        if j == |t| then Err(ValueError)
        else
          var field := t[1..j];
          if field == [] || '{' in field || Positional(field) then Err(ValueError)
          else if field !in values then Err(KeyError(field))
          else Prepend(values[field], FormatMap(t[j + 1..], values))
    else if t[0] == '}' then
      if |t| > 1 && t[1] == '}' then Prepend("}", FormatMap(t[2..], values))
      else Err(ValueError)
    else Prepend([t[0]], FormatMap(t[1..], values))
  }

  /** Doubles every brace: the template whose rendering is `s` itself. */
  function Escape(s: string): (t: string)
    ensures |t| >= |s|
  {
    if s == [] then [] else EscapeChar(s[0]) + Escape(s[1..])
  }

  function EscapeChar(c: char): string
  {
    if c == '{' || c == '}' then [c, c] else [c]
  }

  /** One escaped character in front of a template renders as that character in front. */
  lemma FormatAfterChar(c: char, t: string, values: map<string, string>)
    ensures FormatMap(EscapeChar(c) + t, values) == Prepend([c], FormatMap(t, values))
  {
    if c == '{' || c == '}' {
      assert (EscapeChar(c) + t)[2..] == t;
    } else {
      assert (EscapeChar(c) + t)[1..] == t;
    }
  }

  predicate NoBraces(s: string)
  {
    '{' !in s && '}' !in s
  }

  lemma NoBracesConcat(a: string, b: string)
    requires NoBraces(a) && NoBraces(b)
    ensures NoBraces(a + b)
  {
    assert forall c | c in a + b :: c in a || c in b;
  }

  /** Rendering a template with literal text in front puts that text in front of the rendering. */
  lemma {:induction false} FormatAfterEscape(s: string, t: string, values: map<string, string>)
    ensures FormatMap(Escape(s) + t, values) == Prepend(s, FormatMap(t, values))
    decreases |s|
  {
    var r := FormatMap(t, values);
    if s == [] {
      assert Escape(s) + t == t;
      if r.Ok? {
        assert [] + r.value == r.value;
      }
    } else {
      var rest := Escape(s[1..]) + t;
      assert Escape(s) + t == EscapeChar(s[0]) + rest;
      FormatAfterEscape(s[1..], t, values);
      FormatAfterChar(s[0], rest, values);
      if r.Ok? {
        assert [s[0]] + (s[1..] + r.value) == s + r.value;
      }
    }
  }

  /** Escaped text renders back to itself, whatever values are supplied. */
  lemma EscapeRoundTrip(s: string, values: map<string, string>)
    ensures FormatMap(Escape(s), values) == Ok(s)
  {
    FormatAfterEscape(s, [], values);
    assert Escape(s) + [] == Escape(s);
    assert s + [] == s;
  }

  /** A text without braces is its own escape. */
  lemma {:induction false} EscapeNoBraces(s: string)
    requires NoBraces(s)
    ensures Escape(s) == s
    decreases |s|
  {
    if s != [] {
      assert s[0] in s;
      assert forall c | c in s[1..] :: c in s;
      EscapeNoBraces(s[1..]);
      assert [s[0]] + s[1..] == s;
    }
  }

  /** A template without placeholders or braces renders unchanged. */
  lemma PlainTemplate(s: string, values: map<string, string>)
    requires NoBraces(s)
    ensures FormatMap(s, values) == Ok(s)
  {
    EscapeNoBraces(s);
    EscapeRoundTrip(s, values);
  }

  /** A placeholder followed by more template renders as its value followed by the rest. */
  lemma PlaceholderThen(field: string, rest: string, values: map<string, string>)
    requires FieldName(field)
    ensures field in values ==>
      FormatMap("{" + field + "}" + rest, values) == Prepend(values[field], FormatMap(rest, values))
    ensures field !in values ==>
      FormatMap("{" + field + "}" + rest, values) == Err(KeyError(field))
  {
    var t := "{" + field + "}" + rest;
    assert t[0] == '{' && t[1] == field[0];
    assert field[0] != '{' by { assert field[0] in field; }
    forall k | 1 <= k < |field| + 1 ensures t[k] != '}' {
      assert t[k] == field[k - 1];
      assert field[k - 1] in field;
    }
    assert t[|field| + 1] == '}';
    CloseBraceIs(t, 1, |field| + 1);
    assert t[1..|field| + 1] == field;
    assert t[|field| + 2..] == rest;
  }

  /** The template `before{field}after`, with its literal parts escaped. */
  function OneFieldTemplate(before: string, field: string, after: string): string
  {
    Escape(before) + ("{" + field + "}" + Escape(after))
  }

  /**
   * A template with one placeholder between two literal texts renders the
   * supplied value in its place, and raises KeyError naming the field when
   * no value is supplied for it.
   */
  lemma OnePlaceholder(before: string, field: string, after: string, values: map<string, string>)
    requires FieldName(field)
    ensures field in values ==> FormatMap(OneFieldTemplate(before, field, after), values) == Ok(before + values[field] + after)
    ensures field !in values ==> FormatMap(OneFieldTemplate(before, field, after), values) == Err(KeyError(field))
  {
    var tail := "{" + field + "}" + Escape(after);
    FormatAfterEscape(before, tail, values);
    PlaceholderThen(field, Escape(after), values);
    if field in values {
      EscapeRoundTrip(after, values);
      assert before + (values[field] + after) == before + values[field] + after;
    }
  }

  /** `CloseBrace` finds the first `}` from `i`. */
  lemma {:induction false} CloseBraceIs(t: string, i: nat, j: nat)
    requires i <= j < |t| && t[j] == '}'
    requires forall k | i <= k < j :: t[k] != '}'
    ensures CloseBrace(t, i) == j
    decreases j - i
  {
    if i < j {
      CloseBraceIs(t, i + 1, j);
    }
  }

  /**
   * `Context.__getattr__`: looks `name` up on the wrapped object. A missing
   * attribute, or one bound to None, yields the diagnostic string and never
   * raises; a text template is rendered with the caller's values; any other
   * object has no `format_map` and raises (modelled as ValueError here).
   */
  function GetAttr(obj: map<string, Attr>, name: string, locals: map<string, string>): (r: Result<string, FormatError>)
    ensures (name !in obj || obj[name] == NoneAttr) ==> r == Ok(NotDefined(name))
    ensures name in obj && obj[name].Str? && NoBraces(obj[name].s) ==> r == Ok(obj[name].s)
    ensures name in obj && obj[name] == Namespace ==> r.Err?
  {
    if name !in obj || obj[name] == NoneAttr then Ok(NotDefined(name))
    else if obj[name].Namespace? then Err(ValueError)
    else
      PlainTemplateRendered(obj[name].s, locals);
      FormatMap(obj[name].s, locals)
  }

  lemma PlainTemplateRendered(s: string, locals: map<string, string>)
    ensures NoBraces(s) ==> FormatMap(s, locals) == Ok(s)
  {
    if NoBraces(s) {
      PlainTemplate(s, locals);
    }
  }
}
