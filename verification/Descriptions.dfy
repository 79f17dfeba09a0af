/**
 * The description the plug-ins leave on a cloud rule, so that its policy and its priority can be told
 * from the cloud alone.
 */
module Descriptions {
  import opened Wrappers
  import opened Text
  import opened Decimals

  datatype Description = Description(name: string, namespace: string, priority: Option<real>)

  const NAME := "Name"
  const NAMESPACE := "Ns"
  const PRIORITY := "Priority"

  // ---------------------------------------------------------------------------------------------
  // Printing
  // ---------------------------------------------------------------------------------------------

  function PriorityText(p: real): string {
    Print4(Round4(p))
  }

  function Field(key: string, value: string): string {
    key + ":" + value
  }

  function ToText(d: Description): string {
    var names := Field(NAME, d.name) + ", " + Field(NAMESPACE, d.namespace);
    if d.priority.None? then names else names + ", " + Field(PRIORITY, PriorityText(d.priority.value))
  }

  /** A namespaced name has exactly two parts. */
  function Generate(namespacedName: string, priority: Option<real>): Result<string> {
    var tokens := Split(namespacedName, '/');
    if |tokens| != 2 then Err else Ok(ToText(Description(tokens[1], tokens[0], priority)))
  }

  // ---------------------------------------------------------------------------------------------
  // Parsing
  // ---------------------------------------------------------------------------------------------

  /** A piece of the text that has exactly one colon is a field. */
  function FieldOf(piece: string): Option<(string, string)> {
    var kv := Split(TrimSpace(piece), ':');
    if |kv| == 2 then Some((kv[0], kv[1])) else None
  }

  /** The fields of the text; a later one replaces an earlier one of the same key. */
  function FieldsOf(pieces: seq<string>): map<string, string> {
    if pieces == [] then map[]
    else
      var init, last := FieldsOf(pieces[..|pieces| - 1]), FieldOf(pieces[|pieces| - 1]);
      if last.Some? then init[last.value.0 := last.value.1] else init
  }

  function Get(fields: map<string, string>, key: string): string {
    if key in fields then fields[key] else ""
  }

  function FromFields(fields: map<string, string>): Option<Description> {
    if Get(fields, NAME) == "" || Get(fields, NAMESPACE) == "" then None
    else
      Some(Description(Get(fields, NAME), Get(fields, NAMESPACE),
                       if Get(fields, PRIORITY) == "" then None else Some(ParseReal(Get(fields, PRIORITY)))))
  }

  function Extract(text: string): Option<Description> {
    FromFields(FieldsOf(Split(text, ',')))
  }

  /** A missing description is nobody's. */
  method ExtractCloudDescription(text: Option<string>) returns (d: Option<Description>)
    ensures d == if text.None? then None else Extract(text.value)
  {
    if text.None? { return None; }
    var fields: map<string, string> := map[];
    var pieces := Split(text.value, ',');
    for i := 0 to |pieces|
      invariant fields == FieldsOf(pieces[..i])
    {
      assert pieces[..i + 1][..i] == pieces[..i];
      var kv := Split(TrimSpace(pieces[i]), ':');
      if |kv| == 2 { fields := fields[kv[0] := kv[1]]; }
    }
    assert pieces[..|pieces|] == pieces;
    return FromFields(fields);
  }

  // ---------------------------------------------------------------------------------------------
  // Round trip
  // ---------------------------------------------------------------------------------------------

  /** A value that survives being put between commas and colons. */
  predicate Clean(s: string) {
    s != [] && ',' !in s && ':' !in s && !IsSpace(s[|s| - 1])
  }

  /** The namespaced name of a policy whose parts survive. */
  predicate GoodOwner(owner: string, namespace: string, name: string) {
    owner == namespace + "/" + name && Clean(name) && Clean(namespace) && '/' !in name && '/' !in namespace
  }

  predicate GoodKey(k: string) {
    k != [] && ',' !in k && ':' !in k && !IsSpace(k[0])
  }

  lemma FieldOfText(k: string, v: string)
    requires GoodKey(k) && Clean(v)
    ensures FieldOf(Field(k, v)) == Some((k, v)) && FieldOf([' '] + Field(k, v)) == Some((k, v))
    ensures ',' !in Field(k, v)
  {
    var s := k + ":" + v;
    assert s[0] == k[0] && s[|s| - 1] == v[|v| - 1];
    TrimSpaceNothing(s);
    SplitFirst(k, ':', v);
    SplitNone(v, ':');
  }

  lemma PriorityClean(p: real)
    ensures Clean(PriorityText(p))
  {
    var n := Round4(p);
    var m: nat := if n < 0 then -n else n;
    var a, b := Print(m / SCALE), Padded(m % SCALE, 4);
    assert AllDigits(a) && AllDigits(b);
    var u := a + "." + b;
    assert PrintUnsigned(m) == u && u[|u| - 1] == b[3] && b[3] in b;
    assert forall c <- u :: IsDigit(c) || c == '.';
  }

  /** The pieces of a printed description. */
  function Pieces(d: Description): seq<string> {
    [Field(NAME, d.name), [' '] + Field(NAMESPACE, d.namespace)] +
    if d.priority.Some? then [[' '] + Field(PRIORITY, PriorityText(d.priority.value))] else []
  }

  lemma SplitComma(a: string, b: string)
    requires ',' !in a
    ensures Split(a + ", " + b, ',') == [a] + Split([' '] + b, ',')
  {
    assert a + ", " + b == a + [','] + ([' '] + b);
    SplitFirst(a, ',', [' '] + b);
  }

  lemma SplitLast(b: string)
    requires ',' !in b
    ensures Split([' '] + b, ',') == [[' '] + b]
  {
    SplitNone([' '] + b, ',');
  }

  lemma SplitText(d: Description)
    requires ',' !in d.name && ',' !in d.namespace
    ensures Split(ToText(d), ',') == Pieces(d)
  {
    var a, b := Field(NAME, d.name), Field(NAMESPACE, d.namespace);
    assert ',' !in a && ',' !in b;
    if d.priority.Some? {
      PriorityClean(d.priority.value);
      var c := Field(PRIORITY, PriorityText(d.priority.value));
      assert ',' !in c;
      assert a + ", " + b + ", " + c == a + ", " + (b + ", " + c);
      assert [' '] + (b + ", " + c) == ([' '] + b) + ", " + c;
      SplitComma(a, b + ", " + c);
      SplitComma([' '] + b, c);
      SplitLast(c);
    } else {
      SplitComma(a, b);
      SplitLast(b);
    }
  }

  /** The priority with four digits after the point. */
  function Rounded(d: Description): Description {
    d.(priority := if d.priority.Some? then Some(Round4(d.priority.value) as real / 10000.0) else None)
  }

  lemma FieldsSnoc(ps: seq<string>, p: string, k: string, v: string)
    requires FieldOf(p) == Some((k, v))
    ensures FieldsOf(ps + [p]) == FieldsOf(ps)[k := v]
  {
    assert (ps + [p])[..|ps|] == ps;
  }

  lemma NamePieces(d: Description)
    requires Clean(d.name) && Clean(d.namespace)
    ensures FieldsOf(Pieces(d.(priority := None))) == map[][NAME := d.name][NAMESPACE := d.namespace]
  {
    var a, b := Field(NAME, d.name), [' '] + Field(NAMESPACE, d.namespace);
    FieldOfText(NAME, d.name);
    FieldOfText(NAMESPACE, d.namespace);
    FieldsSnoc([], a, NAME, d.name);
    FieldsSnoc([a], b, NAMESPACE, d.namespace);
    assert [] + [a] == [a] && [a] + [b] == [a, b] == Pieces(d.(priority := None));
  }

  lemma PriorityPiece(d: Description)
    requires Clean(d.name) && Clean(d.namespace) && d.priority.Some?
    ensures FieldsOf(Pieces(d)) ==
            map[][NAME := d.name][NAMESPACE := d.namespace][PRIORITY := PriorityText(d.priority.value)]
  {
    var names, text := Pieces(d.(priority := None)), PriorityText(d.priority.value);
    NamePieces(d);
    PriorityClean(d.priority.value);
    FieldOfText(PRIORITY, text);
    FieldsSnoc(names, [' '] + Field(PRIORITY, text), PRIORITY, text);
    assert Pieces(d) == names + [[' '] + Field(PRIORITY, text)];
  }

  lemma FromNames(n: string, s: string)
    requires n != "" && s != ""
    ensures FromFields(map[][NAME := n][NAMESPACE := s]) == Some(Description(n, s, None))
  {
    assert |NAME| == 4 && |NAMESPACE| == 2 && |PRIORITY| == 8;
  }

  lemma FromAll(n: string, s: string, p: string)
    requires n != "" && s != "" && p != ""
    ensures FromFields(map[][NAME := n][NAMESPACE := s][PRIORITY := p]) == Some(Description(n, s, Some(ParseReal(p))))
  {
    assert |NAME| == 4 && |NAMESPACE| == 2 && |PRIORITY| == 8;
    var fields := map[][NAME := n][NAMESPACE := s][PRIORITY := p];
    assert Get(fields, NAME) == n && Get(fields, NAMESPACE) == s && Get(fields, PRIORITY) == p;
  }

  lemma FieldsOfPieces(d: Description)
    requires Clean(d.name) && Clean(d.namespace)
    ensures FromFields(FieldsOf(Pieces(d))) == Some(Rounded(d))
  {
    if d.priority.Some? {
      PriorityPiece(d);
      PriorityClean(d.priority.value);
      FromAll(d.name, d.namespace, PriorityText(d.priority.value));
      ParseRealPrint4(Round4(d.priority.value));
    } else {
      NamePieces(d);
      FromNames(d.name, d.namespace);
    }
  }

  /** Whatever is extracted could have been printed. */
  lemma {:induction false} FieldsAreClean(pieces: seq<string>, k: string)
    requires forall p <- pieces :: ',' !in p
    ensures Get(FieldsOf(pieces), k) == "" || Clean(Get(FieldsOf(pieces), k))
  {
    if pieces != [] {
      var init, last := pieces[..|pieces| - 1], pieces[|pieces| - 1];
      FieldsAreClean(init, k);
      FieldIsClean(last);
    }
  }

  lemma FieldIsClean(piece: string)
    requires ',' !in piece
    ensures FieldOf(piece).Some? && FieldOf(piece).value.1 != "" ==> Clean(FieldOf(piece).value.1)
  {
    var t := TrimSpace(piece);
    var kv := Split(t, ':');
    if |kv| == 2 && kv[1] != "" {
      TrimSpacePart(piece);
      JoinSplit(t, ':');
      SplitPieces(t, ':');
      assert kv[1] in kv;
      assert kv[1..] == [kv[1]];
      assert t == kv[0] + [':'] + kv[1];
      assert t[|t| - 1] == kv[1][|kv[1]| - 1];
      assert forall c <- kv[1] :: c in t;
    }
  }

  /**
   * A description is read back from its text, with the priority rounded to four digits, exactly when
   * both names are non-empty, contain no comma or colon and do not end in white space.
   */
  lemma DescriptionRoundTrip(d: Description)
    ensures Extract(ToText(d)) == Some(Rounded(d)) <==> Clean(d.name) && Clean(d.namespace)
  {
    if Clean(d.name) && Clean(d.namespace) {
      SplitText(d);
      FieldsOfPieces(d);
    } else {
      SplitPieces(ToText(d), ',');
      FieldsAreClean(Split(ToText(d), ','), NAME);
      FieldsAreClean(Split(ToText(d), ','), NAMESPACE);
    }
  }

  lemma TwoTokens(namespace: string, name: string)
    ensures |Split(namespace + "/" + name, '/')| == 2 <==> '/' !in namespace && '/' !in name
    ensures |Split(namespace + "/" + name, '/')| == 2 ==> Split(namespace + "/" + name, '/') == [namespace, name]
  {
    if '/' !in namespace && '/' !in name {
      SplitFirst(namespace, '/', name);
      SplitNone(name, '/');
    }
    if |Split(namespace + "/" + name, '/')| == 2 { OnlyTokens(namespace, name); }
  }

  lemma OnlyTokens(namespace: string, name: string)
    requires |Split(namespace + "/" + name, '/')| == 2
    ensures Split(namespace + "/" + name, '/') == [namespace, name] && '/' !in namespace && '/' !in name
  {
    var s := namespace + "/" + name;
    var t := Split(s, '/');
    JoinSplit(s, '/');
    SplitPieces(s, '/');
    assert t[0] in t && t[1] in t;
    assert t[1..] == [t[1]];
    CutOnce(namespace, name, t[0], t[1], '/');
  }

  /** From a policy's namespaced name to the text and back: exactly when no part has a slash either. */
  lemma GenerateRoundTrip(name: string, namespace: string, priority: Option<real>)
    ensures (Generate(namespace + "/" + name, priority).Ok? &&
             Extract(Generate(namespace + "/" + name, priority).value) == Some(Rounded(Description(name, namespace, priority))))
            <==> Clean(name) && Clean(namespace) && '/' !in name && '/' !in namespace
  {
    TwoTokens(namespace, name);
    DescriptionRoundTrip(Description(name, namespace, priority));
  }
}
