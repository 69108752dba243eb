/** `${VAR}` expansion in plane values (core/cmd/rat/plane.go). Only the braced form is a reference, and
    `$${` stands for a literal `${`. */
module EnvRefs {
  import opened Options

  datatype Expansion = Expanded(text: string) | Unterminated | Undefined(name: string)

  const OPEN := "${"

  /** The text has `${` at position i. */
  predicate OpensAt(s: string, i: nat) {
    i + 2 <= |s| && s[i] == '$' && s[i+1] == '{'
  }

  function Prepend(prefix: string, e: Expansion): Expansion {
    if e.Expanded? then Expanded(prefix + e.text) else e
  }

  function IndexOf(s: string, c: char): (i: Option<nat>)
    ensures i.Some? ==> i.value < |s| && s[i.value] == c && c !in s[..i.value]
    ensures i.None? <==> c !in s
  {
    if s == "" then None
    else if s[0] == c then Some(0)
    else
      var rest := IndexOf(s[1..], c);
      if rest.Some? then assert s[..rest.value + 1] == [s[0]] + s[1..][..rest.value]; Some(rest.value + 1) else None
  }

  function Expand(env: map<string, string>, s: string): Expansion {
    if s == "" then Expanded("")
    else if s[0] == '$' && OpensAt(s, 1) then Prepend(OPEN, Expand(env, s[3..]))
    else if OpensAt(s, 0) then
      var end := IndexOf(s[2..], '}');
      if end.None? then Unterminated
      else
        var name := s[2..2 + end.value];
        if name !in env then Undefined(name) else Prepend(env[name], Expand(env, s[end.value + 3..]))
    else Prepend([s[0]], Expand(env, s[1..]))
  }

  predicate HasOpen(s: string) {
    exists i | 0 <= i < |s| :: OpensAt(s, i)
  }

  lemma {:induction false} NoReferenceNoChange(env: map<string, string>, s: string)
    requires !HasOpen(s)
    ensures Expand(env, s) == Expanded(s)
  {
    if s != "" {
      assert !OpensAt(s, 0);
      assert |s| > 1 ==> !OpensAt(s, 1);
      forall i | 0 <= i < |s[1..]| ensures !OpensAt(s[1..], i) {
        assert !OpensAt(s, i + 1);
      }
      NoReferenceNoChange(env, s[1..]);
      assert [s[0]] + s[1..] == s;
    }
  }

  lemma PrependNothing(e: Expansion)
    ensures Prepend("", e) == e
  {
  }

  /** What the loop has written so far, in front of what it still has to expand. */
  lemma PrependTwice(a: string, b: string, e: Expansion)
    ensures Prepend(a, Prepend(b, e)) == Prepend(a + b, e)
  {
    if e.Expanded? {
      assert a + (b + e.text) == (a + b) + e.text;
    }
  }

  method ContainsOpen(s: string) returns (found: bool)
    ensures found <==> HasOpen(s)
  {
    for i := 0 to |s|
      invariant forall j | 0 <= j < i :: !OpensAt(s, j)
    {
      if OpensAt(s, i) {
        return true;
      }
    }
    found := false;
  }

  /** One turn of the loop: what it writes and where it goes on, or how it fails. */
  datatype Turn = Wrote(text: string, next: nat) | Fails(e: Expansion)

  function TurnAt(env: map<string, string>, s: string, i: nat): Turn
    requires i < |s|
  {
    if s[i] == '$' && OpensAt(s, i + 1) then Wrote(OPEN, i + 3)
    else if OpensAt(s, i) then
      var end := IndexOf(s[i + 2..], '}');
      if end.None? then Fails(Unterminated)
      else
        var name := s[i + 2..][..end.value];
        if name !in env then Fails(Undefined(name)) else Wrote(env[name], i + end.value + 3)
    else Wrote([s[i]], i + 1)
  }

  /** The three kinds of turn at position i: an escape, a reference, any other character. */
  lemma TurnEscape(env: map<string, string>, s: string, i: nat)
    requires i < |s| && s[i] == '$' && OpensAt(s, i + 1)
    ensures Expand(env, s[i..]) == Prepend(OPEN, Expand(env, s[i + 3..]))
  {
    assert s[i..][3..] == s[i + 3..] && OpensAt(s[i..], 1);
  }

  /** A reference at the start of the text. */
  lemma ExpandOpen(env: map<string, string>, s: string)
    requires OpensAt(s, 0) && !OpensAt(s, 1)
    ensures var end := IndexOf(s[2..], '}');
      if end.None? then Expand(env, s) == Unterminated
      else
        var name := s[2..][..end.value];
        if name !in env then Expand(env, s) == Undefined(name)
        else Expand(env, s) == Prepend(env[name], Expand(env, s[end.value + 3..]))
  {
    var end := IndexOf(s[2..], '}');
    if end.Some? {
      assert s[2..2 + end.value] == s[2..][..end.value];
    }
  }

  lemma TurnReference(env: map<string, string>, s: string, i: nat)
    requires OpensAt(s, i) && !OpensAt(s, i + 1)
    ensures var end := IndexOf(s[i + 2..], '}');
      if end.None? then Expand(env, s[i..]) == Unterminated
      else
        var name := s[i + 2..][..end.value];
        if name !in env then Expand(env, s[i..]) == Undefined(name)
        else Expand(env, s[i..]) == Prepend(env[name], Expand(env, s[i + end.value + 3..]))
  {
    assert s[i..][2..] == s[i + 2..];
    ExpandOpen(env, s[i..]);
    var end := IndexOf(s[i + 2..], '}');
    if end.Some? {
      assert s[i..][end.value + 3..] == s[i + end.value + 3..];
    }
  }

  lemma TurnPlain(env: map<string, string>, s: string, i: nat)
    requires i < |s| && !(s[i] == '$' && OpensAt(s, i + 1)) && !OpensAt(s, i)
    ensures Expand(env, s[i..]) == Prepend([s[i]], Expand(env, s[i + 1..]))
  {
    var rest := s[i..];
    assert rest[0] == s[i] && rest[1..] == s[i + 1..];
    assert OpensAt(rest, 1) <==> OpensAt(s, i + 1);
    assert OpensAt(rest, 0) <==> OpensAt(s, i);
  }

  /** The turn is right: `before` stands in front of what is left to expand, before and after it. */
  predicate TurnOk(env: map<string, string>, s: string, before: string, whole: Expansion, t: Turn) {
    && (t.Fails? ==> whole == t.e)
    && (t.Wrote? ==> t.next <= |s| && whole == Prepend(before + t.text, Expand(env, s[t.next..])))
  }

  lemma TurnExpands(env: map<string, string>, s: string, i: nat)
    requires i < |s|
    ensures TurnOk(env, s, "", Expand(env, s[i..]), TurnAt(env, s, i))
    ensures TurnAt(env, s, i).Fails? ==> !TurnAt(env, s, i).e.Expanded?
    ensures TurnAt(env, s, i).Wrote? ==> i < TurnAt(env, s, i).next
  {
    var t, whole := TurnAt(env, s, i), Expand(env, s[i..]);
    assert whole == (if t.Fails? then t.e else Prepend(t.text, Expand(env, s[t.next..]))) by {
      if s[i] == '$' && OpensAt(s, i + 1) {
        TurnEscape(env, s, i);
      } else if OpensAt(s, i) {
        TurnReference(env, s, i);
      } else {
        TurnPlain(env, s, i);
      }
    }
    assert t.Wrote? ==> "" + t.text == t.text;
  }

  /** A turn keeps what the loop maintains: the text written so far stands before the rest's expansion. */
  lemma TurnKeeps(env: map<string, string>, s: string, b: string, i: nat)
    requires i < |s| && Expand(env, s) == Prepend(b, Expand(env, s[i..]))
    ensures TurnOk(env, s, b, Expand(env, s), TurnAt(env, s, i))
    ensures TurnAt(env, s, i).Wrote? ==> i < TurnAt(env, s, i).next
  {
    TurnExpands(env, s, i);
    var t := TurnAt(env, s, i);
    if t.Wrote? {
      assert "" + t.text == t.text;
      PrependTwice(b, t.text, Expand(env, s[t.next..]));
    }
  }

  /** The body of the loop. */
  method TakeTurn(env: map<string, string>, s: string, i: nat) returns (t: Turn)
    requires i < |s|
    ensures t == TurnAt(env, s, i)
  {
    if s[i] == '$' && OpensAt(s, i + 1) {
      return Wrote(OPEN, i + 3);
    }
    if OpensAt(s, i) {
      var end := IndexOf(s[i + 2..], '}');
      if end.None? {
        return Fails(Unterminated);
      }
      var name := s[i + 2..][..end.value];
      if name !in env {
        return Fails(Undefined(name));
      }
      return Wrote(env[name], i + end.value + 3);
    }
    t := Wrote([s[i]], i + 1);
  }

  method ExpandEnvRefs(env: map<string, string>, s: string) returns (e: Expansion)
    ensures e == Expand(env, s)
  {
    var refs := ContainsOpen(s);
    if !refs {
      NoReferenceNoChange(env, s);
      return Expanded(s);
    }
    var b, i := "", 0;
    assert s[0..] == s;
    PrependNothing(Expand(env, s));
    while i < |s|
      invariant 0 <= i <= |s|
      invariant Expand(env, s) == Prepend(b, Expand(env, s[i..]))
    {
      var t := TakeTurn(env, s, i);
      TurnKeeps(env, s, b, i);
      if t.Fails? {
        return t.e;
      }
      b, i := b + t.text, t.next;
    }
    e := Expanded(b);
  }

  // ----- escaping -----

  /** Every `${` becomes `$${`. */
  function Escape(s: string): string {
    if s == "" then ""
    else if OpensAt(s, 0) then "$" + OPEN + Escape(s[2..])
    else [s[0]] + Escape(s[1..])
  }

  /** Escaped text starts as the original does, and never with a reference. */
  lemma EscapeHead(s: string)
    ensures s == "" <==> Escape(s) == ""
    ensures s != "" ==> Escape(s)[0] == s[0]
    ensures !OpensAt(Escape(s), 0)
  {
    if |s| > 1 && !OpensAt(s, 0) {
      EscapeHead(s[1..]);
      assert Escape(s)[1] == Escape(s[1..])[0] == s[1];
    }
  }

  /** Joining `rest` to text that ends in `last` makes no `${` or `$${` across the joint. */
  predicate JoinsClean(s: string, rest: string) {
    s != "" && s[|s|-1] == '$' ==> !OpensAt(rest, 0) && (rest == "" || rest[0] != '{')
  }

  lemma NotAnOpening(s: string, rest: string)
    requires s != "" && !OpensAt(s, 0) && JoinsClean(s, rest)
    ensures var text := [s[0]] + (Escape(s[1..]) + rest);
      !OpensAt(text, 0) && !(s[0] == '$' && OpensAt(text, 1))
  {
    EscapeHead(s[1..]);
    if |s| > 1 && s[0] == '$' {
      assert Escape(s[1..])[0] == s[1] != '{';
      if |s| == 2 {
        assert Escape(s[1..]) == [s[1]] + Escape(s[1..][1..]) == [s[1]];
      } else if !OpensAt(s[1..], 0) {
        EscapeHead(s[1..][1..]);
        assert Escape(s[1..])[1] == s[2];
      }
    }
  }

  lemma ExpandEscaped(env: map<string, string>, tail: string)
    ensures Expand(env, "$" + OPEN + tail) == Prepend(OPEN, Expand(env, tail))
  {
    assert ("$" + OPEN + tail)[3..] == tail;
  }

  lemma ExpandPlain(env: map<string, string>, c: char, tail: string)
    requires !OpensAt([c] + tail, 0) && !(c == '$' && OpensAt([c] + tail, 1))
    ensures Expand(env, [c] + tail) == Prepend([c], Expand(env, tail))
  {
    assert ([c] + tail)[1..] == tail;
  }

  lemma EscapeStepOpen(env: map<string, string>, s: string, rest: string)
    requires OpensAt(s, 0) && Expand(env, Escape(s[2..]) + rest) == Prepend(s[2..], Expand(env, rest))
    ensures Expand(env, Escape(s) + rest) == Prepend(s, Expand(env, rest))
  {
    ExpandEscaped(env, Escape(s[2..]) + rest);
    assert Escape(s) + rest == "$" + OPEN + (Escape(s[2..]) + rest);
    PrependTwice(OPEN, s[2..], Expand(env, rest));
    assert OPEN + s[2..] == s;
  }

  lemma PlainStep(env: map<string, string>, c: char, tail: string, text: string, rest: string)
    requires !OpensAt([c] + text, 0) && !(c == '$' && OpensAt([c] + text, 1))
    requires Expand(env, text) == Prepend(tail, Expand(env, rest))
    ensures Expand(env, [c] + text) == Prepend([c] + tail, Expand(env, rest))
  {
    ExpandPlain(env, c, text);
    PrependTwice([c], tail, Expand(env, rest));
  }

  lemma EscapePlain(s: string, rest: string)
    requires s != "" && !OpensAt(s, 0)
    ensures Escape(s) + rest == [s[0]] + (Escape(s[1..]) + rest) && [s[0]] + s[1..] == s
  {
  }

  /** Escaping then expanding gives back the original, whatever the text and the environment, also when
      more text follows the escaped part. */
  lemma {:induction false} ExpandEscapeThen(env: map<string, string>, s: string, rest: string)
    requires JoinsClean(s, rest)
    ensures Expand(env, Escape(s) + rest) == Prepend(s, Expand(env, rest))
    decreases |s|
  {
    if s == "" {
      assert Escape(s) + rest == rest;
      PrependNothing(Expand(env, rest));
    } else if OpensAt(s, 0) {
      ExpandEscapeThen(env, s[2..], rest);
      EscapeStepOpen(env, s, rest);
    } else {
      ExpandEscapeThen(env, s[1..], rest);
      NotAnOpening(s, rest);
      PlainStep(env, s[0], s[1..], Escape(s[1..]) + rest, rest);
      EscapePlain(s, rest);
    }
  }

  lemma {:induction false} IndexOfIs(s: string, c: char, i: nat)
    requires i < |s| && s[i] == c && c !in s[..i]
    ensures IndexOf(s, c) == Some(i)
  {
    if i > 0 {
      assert s[0] == s[..i][0] != c;
      assert s[1..][..i-1] == s[..i][1..];
      IndexOfIs(s[1..], c, i - 1);
    }
  }

  lemma ReferenceText(name: string, tail: string)
    requires '}' !in name
    ensures var s := OPEN + (name + "}" + tail);
      && s[2..] == name + "}" + tail && IndexOf(s[2..], '}') == Some(|name|)
      && s[2..2 + |name|] == name && s[|name| + 3..] == tail
  {
    var body := name + "}" + tail;
    assert body[..|name|] == name;
    assert (OPEN + body)[2..] == body;
    IndexOfIs(body, '}', |name|);
  }

  lemma ExpandReference(env: map<string, string>, name: string, tail: string)
    requires name in env && '}' !in name
    ensures Expand(env, OPEN + (name + "}" + tail)) == Prepend(env[name], Expand(env, tail))
  {
    var s := OPEN + (name + "}" + tail);
    ReferenceText(name, tail);
    assert OpensAt(s, 0) && !OpensAt(s, 1);
  }

  lemma EscapeRoundTrip(env: map<string, string>, s: string)
    ensures Expand(env, Escape(s)) == Expanded(s)
  {
    ExpandEscapeThen(env, s, "");
    assert Escape(s) + "" == Escape(s) && s + "" == s;
  }

  /** A reference between two escaped texts expands to its value between the originals, and the value is
      not expanded again. The text before it must not end in `$`, which would escape the reference. */
  lemma ReferenceExpands(env: map<string, string>, a: string, name: string, b: string)
    requires name in env && '}' !in name && (a == "" || a[|a|-1] != '$')
    ensures Expand(env, Escape(a) + (OPEN + (name + "}" + Escape(b)))) == Expanded(a + (env[name] + b))
  {
    ExpandEscapeThen(env, a, OPEN + (name + "}" + Escape(b)));
    ExpandReference(env, name, Escape(b));
    EscapeRoundTrip(env, b);
  }

  // ----- what each reference comes to, whatever follows it -----

  /** A reference after escaped text that does not end in `$`: its value stands there and the rest is expanded
      on its own, or, if the variable is undefined, the whole text fails and names it. */
  lemma ReferenceIsValueOrFails(env: map<string, string>, a: string, name: string, rest: string)
    requires '}' !in name && (a == "" || a[|a|-1] != '$')
    ensures Expand(env, Escape(a) + (OPEN + (name + "}" + rest))) ==
      if name in env then Prepend(a + env[name], Expand(env, rest)) else Undefined(name)
  {
    ExpandEscapeThen(env, a, OPEN + (name + "}" + rest));
    if name in env {
      ExpandReference(env, name, rest);
      PrependTwice(a, env[name], Expand(env, rest));
    } else {
      ReferenceText(name, rest);
      assert OpensAt(OPEN + (name + "}" + rest), 0) && !OpensAt(OPEN + (name + "}" + rest), 1);
    }
  }

  /** And one that is never closed fails the whole text. */
  lemma OpenReferenceFails(env: map<string, string>, a: string, rest: string)
    requires '}' !in rest && (a == "" || a[|a|-1] != '$')
    ensures Expand(env, Escape(a) + (OPEN + rest)) == Unterminated
  {
    ExpandEscapeThen(env, a, OPEN + rest);
    assert (OPEN + rest)[2..] == rest;
    assert OpensAt(OPEN + rest, 0) && !OpensAt(OPEN + rest, 1);
  }
}
