/** URI templates with the `{name}` placeholders of Spring's UriTemplate, as
    the service URLs of REST methods use them.
    A template is read as a sequence of literal characters and placeholders;
    expansion replaces each placeholder by the parameter of that name, in
    template order, and fails on the first placeholder that has no
    parameter. Percent-encoding is not part of this module. */
module UriTemplates {
  import opened RestModel

  datatype Part = Literal(c: char) | Variable(name: string)

  /** A character that may follow the first character of a placeholder's
      name. */
  predicate IsNameChar(c: char)
  {
    c != '}' && c != '/'
  }

  /** The length of the longest prefix of s made of name characters. */
  function NameLength(s: string): (n: nat)
    ensures n <= |s|
    ensures forall i :: 0 <= i < n ==> IsNameChar(s[i])
    ensures n < |s| ==> !IsNameChar(s[n])
  {
    if s == [] || !IsNameChar(s[0]) then 0 else 1 + NameLength(s[1..])
  }

  /** `t` starts with a placeholder: `{`, then the shortest non-empty run of
      characters other than `/` that is followed by `}`, then that `}`. The
      name's first character may be any character but `/` (even `}`); the
      others are neither `}` nor `/`. */
  predicate StartsWithPlaceholder(t: string)
  {
    |t| > 2 && t[0] == '{' && t[1] != '/' && NameLength(t[2..]) < |t| - 2 && t[NameLength(t[2..]) + 2] == '}'
  }

  /** Reads a template, scanning left to right for the next placeholder; a
      brace that does not open one is an ordinary character. */
  function Parse(t: string): seq<Part>
    decreases |t|
  {
    if t == [] then []
    else if StartsWithPlaceholder(t) then
      var n := NameLength(t[2..]);
      [Variable(t[1..n + 2])] + Parse(t[n + 3..])
    else [Literal(t[0])] + Parse(t[1..])
  }

  function PartText(p: Part): string
  {
    match p
    case Literal(c) => [c]
    case Variable(name) => "{" + name + "}"
  }

  /** Writes parts back as template text. */
  function Unparse(parts: seq<Part>): string
  {
    if parts == [] then "" else PartText(parts[0]) + Unparse(parts[1..])
  }

  /** The placeholder names among `parts`. */
  function Names(parts: seq<Part>): set<string>
  {
    if parts == [] then {}
    else if parts[0].Variable? then {parts[0].name} + Names(parts[1..])
    else Names(parts[1..])
  }

  /** The placeholder names of a template. */
  function Placeholders(t: string): set<string>
  {
    Names(Parse(t))
  }

  /** Replaces every placeholder by its parameter's value, left to right. */
  function Substitute(parts: seq<Part>, params: map<string, string>): Result<string>
  {
    if parts == [] then Ok("")
    else
      var head := match parts[0]
        case Literal(c) => Ok([c])
        case Variable(name) => if name in params then Ok(params[name]) else Err(MissingUriVariable(name));
      if head.Err? then head
      else
        var rest := Substitute(parts[1..], params);
        if rest.Err? then rest else Ok(head.value + rest.value)
  }

  /** Expands template `t` against `params`. */
  function Expand(t: string, params: map<string, string>): Result<string>
  {
    Substitute(Parse(t), params)
  }

  lemma UnparseCons(p: Part, rest: seq<Part>)
    ensures Unparse([p] + rest) == PartText(p) + Unparse(rest)
  {
    assert ([p] + rest)[1..] == rest;
  }

  lemma PlaceholderText(t: string)
    requires StartsWithPlaceholder(t)
    ensures var n := NameLength(t[2..]);
      t == PartText(Variable(t[1..n + 2])) + t[n + 3..]
  {
    var n := NameLength(t[2..]);
    assert t == t[..1] + t[1..n + 2] + t[n + 2..n + 3] + t[n + 3..];
  }

  lemma ParsePlaceholder(t: string)
    requires StartsWithPlaceholder(t)
    ensures var n := NameLength(t[2..]);
      Parse(t) == [Variable(t[1..n + 2])] + Parse(t[n + 3..])
  {
  }

  lemma ParseLiteral(t: string)
    requires t != [] && !StartsWithPlaceholder(t)
    ensures Parse(t) == [Literal(t[0])] + Parse(t[1..])
  {
  }

  /** Reading a template and writing it back gives the same text: parsing
      loses and invents nothing. */
  lemma {:induction false} ParseRoundTrip(t: string)
    ensures Unparse(Parse(t)) == t
    decreases |t|
  {
    if t == [] {
    } else if StartsWithPlaceholder(t) {
      var n := NameLength(t[2..]);
      var p, rest := Variable(t[1..n + 2]), t[n + 3..];
      ParsePlaceholder(t);
      ParseRoundTrip(rest);
      UnparseCons(p, Parse(rest));
      PlaceholderText(t);
    } else {
      ParseLiteral(t);
      ParseRoundTrip(t[1..]);
      UnparseCons(Literal(t[0]), Parse(t[1..]));
      assert t == [t[0]] + t[1..];
    }
  }

  /** A template with a placeholder is not blank: it holds a `{`. */
  lemma {:induction false} PlaceholdersHaveText(t: string)
    requires Placeholders(t) != {}
    ensures ContainsText(t)
    decreases |t|
  {
    if StartsWithPlaceholder(t) {
      assert !IsJavaWhitespace(t[0]);
    } else {
      ParseLiteral(t);
      assert Placeholders(t) == Placeholders(t[1..]);
      PlaceholdersHaveText(t[1..]);
      var i :| 0 <= i < |t[1..]| && !IsJavaWhitespace(t[1..][i]);
      assert t[i + 1] == t[1..][i];
    }
  }

  lemma {:induction false} SubstituteOutcome(parts: seq<Part>, params: map<string, string>)
    ensures Substitute(parts, params).Ok? <==> Names(parts) <= params.Keys
    ensures Substitute(parts, params).Err? ==>
      var e := Substitute(parts, params).error;
      e.MissingUriVariable? && e.name in Names(parts) && e.name !in params
  {
    if parts != [] {
      SubstituteOutcome(parts[1..], params);
    }
  }

  /** Expansion succeeds exactly when every placeholder has a parameter, and
      a failure names a placeholder that has none. */
  lemma ExpandOutcome(t: string, params: map<string, string>)
    ensures Expand(t, params).Ok? <==> Placeholders(t) <= params.Keys
    ensures Expand(t, params).Err? ==>
      var e := Expand(t, params).error;
      e.MissingUriVariable? && e.name in Placeholders(t) && e.name !in params
  {
    SubstituteOutcome(Parse(t), params);
  }

  lemma {:induction false} SubstituteReadsOnlyNames(parts: seq<Part>, p1: map<string, string>, p2: map<string, string>)
    requires forall n :: n in Names(parts) ==> (n in p1 <==> n in p2) && (n in p1 ==> p1[n] == p2[n])
    ensures Substitute(parts, p1) == Substitute(parts, p2)
  {
    if parts != [] {
      SubstituteReadsOnlyNames(parts[1..], p1, p2);
    }
  }

  /** Parameters that no placeholder names never change an expansion, and
      neither does their absence. */
  lemma ExpandReadsOnlyPlaceholders(t: string, p1: map<string, string>, p2: map<string, string>)
    requires forall n :: n in Placeholders(t) ==> (n in p1 <==> n in p2) && (n in p1 ==> p1[n] == p2[n])
    ensures Expand(t, p1) == Expand(t, p2)
  {
    SubstituteReadsOnlyNames(Parse(t), p1, p2);
  }

  lemma {:induction false} SubstituteWithoutNames(parts: seq<Part>, params: map<string, string>)
    requires Names(parts) == {}
    ensures Substitute(parts, params) == Ok(Unparse(parts))
  {
    if parts != [] {
      SubstituteWithoutNames(parts[1..], params);
    }
  }

  /** A template without placeholders expands to itself. */
  lemma ExpandWithoutPlaceholders(t: string, params: map<string, string>)
    requires Placeholders(t) == {}
    ensures Expand(t, params) == Ok(t)
  {
    SubstituteWithoutNames(Parse(t), params);
    ParseRoundTrip(t);
  }

  /** Binds every name to its own placeholder text. */
  function SelfBinding(names: set<string>): map<string, string>
  {
    map n | n in names :: "{" + n + "}"
  }

  lemma {:induction false} SubstituteSelfBinding(parts: seq<Part>, names: set<string>)
    requires Names(parts) <= names
    ensures Substitute(parts, SelfBinding(names)) == Ok(Unparse(parts))
  {
    if parts != [] {
      SubstituteSelfBinding(parts[1..], names);
    }
  }

  /** Expansion touches the placeholders and nothing else: binding each
      placeholder to its own text gives the template back. */
  lemma ExpandSelfBinding(t: string)
    ensures Expand(t, SelfBinding(Placeholders(t))) == Ok(t)
  {
    SubstituteSelfBinding(Parse(t), Placeholders(t));
    ParseRoundTrip(t);
  }

  /** How often placeholder `name` occurs among `parts`. */
  function Occurrences(parts: seq<Part>, name: string): (k: nat)
    ensures k > 0 <==> name in Names(parts)
  {
    if parts == [] then 0
    else (if parts[0] == Variable(name) then 1 else 0) + Occurrences(parts[1..], name)
  }

  /** The text one part stands for under `params`. */
  function Bound(p: Part, params: map<string, string>): string
    requires p.Variable? ==> p.name in params
  {
    match p
    case Literal(c) => [c]
    case Variable(name) => params[name]
  }

  lemma SubstituteUnfold(parts: seq<Part>, params: map<string, string>)
    requires parts != [] && Names(parts) <= params.Keys
    ensures Names(parts[1..]) <= params.Keys
    ensures Substitute(parts, params).Ok? && Substitute(parts[1..], params).Ok?
    ensures Substitute(parts, params).value == Bound(parts[0], params) + Substitute(parts[1..], params).value
  {
    SubstituteOutcome(parts, params);
    SubstituteOutcome(parts[1..], params);
  }

  lemma {:induction false} SubstituteLength(parts: seq<Part>, p1: map<string, string>, p2: map<string, string>, name: string)
    requires Names(parts) <= p1.Keys && Names(parts) <= p2.Keys
    requires name in p1 && name in p2
    requires forall n :: n in Names(parts) && n != name ==> p1[n] == p2[n]
    ensures Substitute(parts, p1).Ok? && Substitute(parts, p2).Ok?
    ensures |Substitute(parts, p1).value| - |Substitute(parts, p2).value|
      == Occurrences(parts, name) * (|p1[name]| - |p2[name]|)
  {
    SubstituteOutcome(parts, p1);
    SubstituteOutcome(parts, p2);
    if parts != [] {
      SubstituteUnfold(parts, p1);
      SubstituteUnfold(parts, p2);
      SubstituteLength(parts[1..], p1, p2, name);
      var k := Occurrences(parts[1..], name);
      var d := |p1[name]| - |p2[name]|;
      var h1, h2 := Bound(parts[0], p1), Bound(parts[0], p2);
      if parts[0] == Variable(name) {
        assert |h1| - |h2| == d;
        assert Occurrences(parts, name) == k + 1;
        assert (k + 1) * d == k * d + d;
      } else {
        assert h1 == h2;
        assert Occurrences(parts, name) == k;
      }
    }
  }

  /** Two bindings that differ only in the value of one placeholder expand a
      template that uses it to two different texts. */
  lemma {:induction false} SubstituteSeparatesValues(parts: seq<Part>, p1: map<string, string>, p2: map<string, string>, name: string)
    requires Names(parts) <= p1.Keys && Names(parts) <= p2.Keys
    requires name in Names(parts) && p1[name] != p2[name]
    requires forall n :: n in Names(parts) && n != name ==> p1[n] == p2[n]
    ensures Substitute(parts, p1).Ok? && Substitute(parts, p2).Ok?
    ensures Substitute(parts, p1).value != Substitute(parts, p2).value
  {
    var v1, v2 := p1[name], p2[name];
    if |v1| != |v2| {
      SubstituteLength(parts, p1, p2, name);
      assert Occurrences(parts, name) * (|v1| - |v2|) != 0;
    } else {
      SubstituteUnfold(parts, p1);
      SubstituteUnfold(parts, p2);
      var h1, h2 := Bound(parts[0], p1), Bound(parts[0], p2);
      var r1, r2 := Substitute(parts[1..], p1).value, Substitute(parts[1..], p2).value;
      if parts[0] == Variable(name) {
        var i :| 0 <= i < |v1| && v1[i] != v2[i];
        assert (h1 + r1)[i] == v1[i] && (h2 + r2)[i] == v2[i];
      } else {
        assert h1 == h2;
        assert name in Names(parts[1..]);
        SubstituteSeparatesValues(parts[1..], p1, p2, name);
        assert (h1 + r1)[|h1|..] == r1 && (h2 + r2)[|h2|..] == r2;
      }
    }
  }

  /** Expanding one template twice, with one of its placeholders bound to two
      different values, gives two different texts. */
  lemma ExpandSeparatesValues(t: string, p1: map<string, string>, p2: map<string, string>, name: string)
    requires Placeholders(t) <= p1.Keys && Placeholders(t) <= p2.Keys
    requires name in Placeholders(t) && p1[name] != p2[name]
    requires forall n :: n in Placeholders(t) && n != name ==> p1[n] == p2[n]
    ensures Expand(t, p1).Ok? && Expand(t, p2).Ok? && Expand(t, p1) != Expand(t, p2)
  {
    SubstituteSeparatesValues(Parse(t), p1, p2, name);
  }

  /** Each character of `s` as a literal part. */
  function Literals(s: string): (parts: seq<Part>)
    ensures |parts| == |s| && Names(parts) == {}
  {
    if s == [] then [] else [Literal(s[0])] + Literals(s[1..])
  }

  /** A run of name characters closed by '}' is read up to the brace. */
  lemma {:induction false} NameLengthBeforeClose(s: string)
    requires forall i :: 0 <= i < |s| ==> IsNameChar(s[i])
    ensures NameLength(s + "}") == |s|
  {
    if s != [] {
      NameLengthBeforeClose(s[1..]);
      assert (s + "}")[1..] == s[1..] + "}";
    }
  }

  /** A template that is exactly one placeholder parses to that variable. */
  lemma ParseOnePlaceholder(t: string, name: string)
    requires name != [] && forall i :: 0 <= i < |name| ==> IsNameChar(name[i])
    requires |t| == |name| + 2 && t[0] == '{' && t[1..|name| + 1] == name && t[|name| + 1] == '}'
    ensures Parse(t) == [Variable(name)]
  {
    var rest := name[1..];
    assert t[2..] == rest + "}";
    NameLengthBeforeClose(rest);
    assert StartsWithPlaceholder(t);
    ParsePlaceholder(t);
    assert t[|name| + 2..] == [];
  }

  lemma {:induction false} ParseAfterLiterals(prefix: string, name: string)
    requires forall i :: 0 <= i < |prefix| ==> prefix[i] != '{'
    requires name != [] && forall i :: 0 <= i < |name| ==> IsNameChar(name[i])
    ensures Parse(prefix + "{" + name + "}") == Literals(prefix) + [Variable(name)]
  {
    var t := prefix + "{" + name + "}";
    if prefix == [] {
      assert t[1..|name| + 1] == name;
      ParseOnePlaceholder(t, name);
    } else {
      ParseAfterLiterals(prefix[1..], name);
      assert t[0] == prefix[0] && t[1..] == prefix[1..] + "{" + name + "}";
      ParseLiteral(t);
    }
  }


  lemma SubstituteLiteralCons(c: char, rest: seq<Part>, params: map<string, string>)
    ensures Substitute([Literal(c)] + rest, params) ==
      if Substitute(rest, params).Ok? then Ok([c] + Substitute(rest, params).value) else Substitute(rest, params)
  {
    assert ([Literal(c)] + rest)[1..] == rest;
  }

  lemma {:induction false} SubstituteAfterLiterals(prefix: string, rest: seq<Part>, params: map<string, string>)
    ensures Substitute(Literals(prefix) + rest, params) ==
      if Substitute(rest, params).Ok? then Ok(prefix + Substitute(rest, params).value) else Substitute(rest, params)
  {
    var r := Substitute(rest, params);
    if prefix == [] {
      assert Literals(prefix) + rest == rest;
      assert r.Ok? ==> prefix + r.value == r.value;
    } else {
      SubstituteAfterLiterals(prefix[1..], rest, params);
      assert Literals(prefix) + rest == [Literal(prefix[0])] + (Literals(prefix[1..]) + rest);
      SubstituteLiteralCons(prefix[0], Literals(prefix[1..]) + rest, params);
      assert r.Ok? ==> [prefix[0]] + (prefix[1..] + r.value) == prefix + r.value;
    }
  }

  /** A template made of a prefix without `{` and one placeholder, such as
      `/things/{id}`: bound, the placeholder is replaced by its value
      (`/things/42` for `id` bound to `42`); unbound, expansion fails naming
      it. */
  lemma ExpandOnePlaceholder(prefix: string, name: string, params: map<string, string>)
    requires forall i :: 0 <= i < |prefix| ==> prefix[i] != '{'
    requires name != [] && forall i :: 0 <= i < |name| ==> IsNameChar(name[i])
    ensures name in params ==> Expand(prefix + "{" + name + "}", params) == Ok(prefix + params[name])
    ensures name !in params ==> Expand(prefix + "{" + name + "}", params) == Err(MissingUriVariable(name))
  {
    ParseAfterLiterals(prefix, name);
    SubstituteAfterLiterals(prefix, [Variable(name)], params);
    if name in params {
      assert Substitute([Variable(name)], params) == Ok(params[name] + "");
      assert params[name] + "" == params[name];
    }
  }
}
