/** Canonical JSON: one text for each value, and a strict parser that finds the value back (RFC 8259 section 4). */
module Json {
  import opened Outcomes
  import opened Ordering
  import opened JsonText

  datatype Json =
    | Null
    | Bool(b: bool)
    | Int(n: int)
    | Str(s: string)
    | Arr(items: seq<Json>)
    | Obj(fields: map<string, Json>)

  // ----- Printer -----

  /** `json.dumps` with sorted keys, no spaces and ASCII output. */
  function Print(v: Json): string
    decreases v, 1
  {
    match v
    case Null => "null"
    case Bool(b) => if b then "true" else "false"
    case Int(n) => Decimal(n)
    case Str(s) => Quoted(s)
    case Arr(items) => if items == [] then "[]" else "[" + PrintItems(items)
    case Obj(fields) => if fields == map[] then "{}" else "{" + PrintMembers(Sorted(fields.Keys), v)
  }

  function Quoted(s: string): string {
    "\"" + (Escape(s) + "\"")
  }

  /** The items, with their commas and the closing bracket. */
  function PrintItems(items: seq<Json>): string
    requires items != []
    decreases items
  {
    Print(items[0]) + if |items| == 1 then "]" else "," + PrintItems(items[1..])
  }

  function PrintMembers(keys: seq<string>, v: Json): string
    requires v.Obj? && keys != [] && forall i :: 0 <= i < |keys| ==> keys[i] in v.fields
    decreases v, 0, |keys|
  {
    PrintMember(keys[0], v.fields[keys[0]]) + if |keys| == 1 then "}" else "," + PrintMembers(keys[1..], v)
  }

  function PrintMember(key: string, v: Json): string
    decreases v, 2
  {
    Quoted(key) + (":" + Print(v))
  }

  // ----- Parser -----

  predicate Space(c: char) {
    c == ' ' || c == '\t' || c == '\n' || c == '\r'
  }

  function Skip(t: string): (u: string)
    ensures |u| <= |t| && (u != [] ==> !Space(u[0]))
  {
    if t != [] && Space(t[0]) then Skip(t[1..]) else t
  }

  predicate Starts(t: string, word: string) {
    |word| <= |t| && t[..|word|] == word
  }

  function ParseValue(t: string): (r: Parse<Json>)
    ensures r.Good? ==> |r.rest| < |t|
    decreases |t|, 0
  {
    if t == [] then Bad
    else if t[0] == '"' then
      var s := ReadString(t[1..]);
      if s.Bad? then Bad else Good(Str(s.value), s.rest)
    else if t[0] == '[' then
      var u := Skip(t[1..]);
      if Starts(u, "]") then Good(Arr([]), u[1..])
      else
        var items := ParseItems(u);
        if items.Bad? then Bad else Good(Arr(items.value), items.rest)
    else if t[0] == '{' then
      var u := Skip(t[1..]);
      if Starts(u, "}") then Good(Obj(map[]), u[1..])
      else
        var pairs := ParseMembers(u);
        if pairs.Bad? || Unique(pairs.value).None? then Bad
        else Good(Obj(Unique(pairs.value).value), pairs.rest)
    else ParseScalar(t)
  }

  function ParseScalar(t: string): (r: Parse<Json>)
    ensures r.Good? ==> |r.rest| < |t|
  {
    if Starts(t, "null") then Good(Null, t[4..])
    else if Starts(t, "true") then Good(Bool(true), t[4..])
    else if Starts(t, "false") then Good(Bool(false), t[5..])
    else
      var n := ReadNumber(t);
      if n.Bad? then Bad else Good(Int(n.value), n.rest)
  }

  /** One or more items, and the closing bracket. */
  function ParseItems(t: string): (r: Parse<seq<Json>>)
    ensures r.Good? ==> |r.rest| < |t|
    decreases |t|, 1
  {
    var first := ParseValue(t);
    if first.Bad? then Bad
    else
      var u := Skip(first.rest);
      if Starts(u, "]") then Good([first.value], u[1..])
      else if !Starts(u, ",") then Bad
      else
        var others := ParseItems(Skip(u[1..]));
        if others.Bad? then Bad else Good([first.value] + others.value, others.rest)
  }

  /** One or more members, and the closing brace. */
  function ParseMembers(t: string): (r: Parse<seq<(string, Json)>>)
    ensures r.Good? ==> |r.rest| < |t|
    decreases |t|, 1
  {
    var first := ParseMember(t);
    if first.Bad? then Bad
    else
      var u := Skip(first.rest);
      if Starts(u, "}") then Good([first.value], u[1..])
      else if !Starts(u, ",") then Bad
      else
        var others := ParseMembers(Skip(u[1..]));
        if others.Bad? then Bad else Good([first.value] + others.value, others.rest)
  }

  function ParseMember(t: string): (r: Parse<(string, Json)>)
    ensures r.Good? ==> |r.rest| < |t|
    decreases |t|, 0
  {
    if !Starts(t, "\"") then Bad
    else
      var key := ReadString(t[1..]);
      if key.Bad? || !Starts(Skip(key.rest), ":") then Bad
      else
        var v := ParseValue(Skip(Skip(key.rest)[1..]));
        if v.Bad? then Bad else Good((key.value, v.value), v.rest)
  }

  function Parse(t: string): Option<Json> {
    var v := ParseValue(Skip(t));
    if v.Good? && Skip(v.rest) == [] then Some(v.value) else None
  }

  // ----- Objects -----

  /** The map of a list of pairs; None if a key repeats. */
  function Unique(pairs: seq<(string, Json)>): Option<map<string, Json>> {
    if pairs == [] then Some(map[])
    else
      var prior, last := Unique(pairs[..|pairs| - 1]), pairs[|pairs| - 1];
      if prior.None? || last.0 in prior.value then None else Some(prior.value[last.0 := last.1])
  }

  /** `_unique_object`. */
  method UniqueObject(pairs: seq<(string, Json)>) returns (r: Outcome<map<string, Json>>)
    ensures r == if Unique(pairs).Some? then Done(Unique(pairs).value) else Defect
  {
    var value: map<string, Json> := map[];
    for i := 0 to |pairs|
      invariant Unique(pairs[..i]) == Some(value)
    {
      assert pairs[..i + 1][..i] == pairs[..i];
      if pairs[i].0 in value {
        UniqueFails(pairs, i + 1);
        return Defect;
      }
      value := value[pairs[i].0 := pairs[i].1];
    }
    assert pairs[..|pairs|] == pairs;
    r := Done(value);
  }

  lemma {:induction false} UniqueFails(pairs: seq<(string, Json)>, n: nat)
    requires n <= |pairs| && Unique(pairs[..n]).None?
    ensures Unique(pairs).None?
    decreases |pairs| - n
  {
    if n < |pairs| {
      assert pairs[..n + 1][..n] == pairs[..n];
      UniqueFails(pairs, n + 1);
    } else {
      assert pairs[..n] == pairs;
    }
  }

  /** What a list of pairs says: each key at most once, and nothing but the pairs. */
  lemma {:induction false} UniqueMeans(pairs: seq<(string, Json)>)
    ensures Unique(pairs).Some? <==> forall i, j :: 0 <= i < j < |pairs| ==> pairs[i].0 != pairs[j].0
    ensures Unique(pairs).Some? ==>
              forall k, v :: (k in Unique(pairs).value && Unique(pairs).value[k] == v) <==> (k, v) in pairs
  {
    if pairs == [] {
    } else {
      var shorter, last := pairs[..|pairs| - 1], pairs[|pairs| - 1];
      UniqueMeans(shorter);
      assert forall x :: x in pairs <==> x in shorter || x == last;
      if Unique(shorter).Some? && last.0 in Unique(shorter).value {
        var v := Unique(shorter).value[last.0];
        assert (last.0, v) in shorter;
        var i :| 0 <= i < |shorter| && shorter[i] == (last.0, v);
        assert pairs[i].0 == pairs[|pairs| - 1].0;
      }
      if Unique(shorter).Some? && last.0 !in Unique(shorter).value {
        forall i | 0 <= i < |shorter| ensures pairs[i].0 != last.0 {
          assert (shorter[i].0, shorter[i].1) in shorter;
        }
      }
    }
  }

  // ----- Round trip -----

  /** A text that no number can run into. */
  predicate Closer(t: string) {
    t == [] || t[0] == ',' || t[0] == ']' || t[0] == '}' || t[0] == '\n'
  }

  function PairsOf(keys: seq<string>, fields: map<string, Json>): (pairs: seq<(string, Json)>)
    requires forall i :: 0 <= i < |keys| ==> keys[i] in fields
    ensures |pairs| == |keys| && forall i :: 0 <= i < |keys| ==> pairs[i] == (keys[i], fields[keys[i]])
  {
    seq(|keys|, i requires 0 <= i < |keys| => (keys[i], fields[keys[i]]))
  }

  /** A map is what its entries say. */
  lemma SameMap(m: map<string, Json>, fields: map<string, Json>, pairs: seq<(string, Json)>)
    requires forall k, v :: (k in m && m[k] == v) <==> (k, v) in pairs
    requires forall k, v :: (k in fields && fields[k] == v) <==> (k, v) in pairs
    ensures m == fields
  {
    assert forall k :: k in m ==> (k, m[k]) in pairs;
    assert forall k :: k in fields ==> (k, fields[k]) in pairs;
  }

  lemma PairsSay(keys: seq<string>, fields: map<string, Json>)
    requires forall k :: k in keys <==> k in fields
    ensures forall k, v :: (k in fields && fields[k] == v) <==> (k, v) in PairsOf(keys, fields)
  {
    var pairs := PairsOf(keys, fields);
    forall k | k in fields ensures (k, fields[k]) in pairs {
      var i :| 0 <= i < |keys| && keys[i] == k;
      assert pairs[i] == (k, fields[k]);
    }
  }

  lemma UniqueOfFields(fields: map<string, Json>)
    ensures Unique(PairsOf(Sorted(fields.Keys), fields)) == Some(fields)
  {
    var keys := Sorted(fields.Keys);
    var pairs := PairsOf(keys, fields);
    UniqueMeans(pairs);
    forall i, j | 0 <= i < j < |pairs| ensures pairs[i].0 != pairs[j].0 {
      LessTotal(keys[i], keys[j]);
    }
    PairsSay(keys, fields);
    SameMap(Unique(pairs).value, fields, pairs);
  }

  lemma Join(a: string, b: string, c: string)
    ensures a + b + c == a + (b + c)
  {
  }

  lemma Cons(c: char, t: string)
    ensures ([c] + t)[0] == c && ([c] + t)[1..] == t && (!Space(c) ==> Skip([c] + t) == [c] + t)
    ensures Starts([c] + t, [c])
  {
    assert ([c] + t)[..1] == [c];
  }

  lemma Differs(t: string, word: string)
    requires t != [] && word != [] && t[0] != word[0]
    ensures !Starts(t, word)
  {
  }

  /** How a printed value begins. */
  predicate Opens(c: char) {
    c == '"' || c == '[' || c == '{' || c == '-' || Digit(c) || c == 'n' || c == 't' || c == 'f'
  }

  lemma PrintOpens(v: Json)
    ensures Print(v) != [] && Opens(Print(v)[0])
  {
  }

  lemma WordRoundTrip(word: string, rest: string)
    ensures Starts(word + rest, word) && (word + rest)[|word|..] == rest
  {
  }

  lemma ScalarRoundTrip(v: Json, rest: string)
    requires v.Null? || v.Bool? || v.Int?
    requires Closer(rest)
    ensures ParseValue(Print(v) + rest) == Good(v, rest)
  {
    var t := Print(v) + rest;
    WordRoundTrip(Print(v), rest);
    if v.Bool? {
      Differs(t, "null");
      if !v.b { Differs(t, "true"); }
    } else if v.Int? {
      Differs(t, "null");
      Differs(t, "true");
      Differs(t, "false");
      NumberRoundTrip(v.n, rest);
    }
  }

  lemma QuotedRoundTrip(s: string, rest: string)
    ensures Starts(Quoted(s) + rest, "\"") && ReadString((Quoted(s) + rest)[1..]) == Good(s, rest)
  {
    StringRoundTrip(s, rest);
    Join("\"", Escape(s) + "\"", rest);
    Cons('"', Escape(s) + "\"" + rest);
  }

  /** Parsing a printed value gives the value back, and leaves what follows alone. */
  lemma {:induction false} ParsePrint(v: Json, rest: string)
    requires Closer(rest)
    ensures ParseValue(Print(v) + rest) == Good(v, rest)
    decreases v, 1
  {
    match v
    case Null => ScalarRoundTrip(v, rest);
    case Bool(_) => ScalarRoundTrip(v, rest);
    case Int(_) => ScalarRoundTrip(v, rest);
    case Str(s) => QuotedRoundTrip(s, rest);
    case Arr(items) =>
      if items == [] {
        EmptyRoundTrip('[', ']', rest);
      } else {
        ItemsRoundTrip(items, rest);
        Join("[", PrintItems(items), rest);
        Cons('[', PrintItems(items) + rest);
        ItemsOpen(items, rest);
      }
    case Obj(fields) =>
      if fields == map[] {
        EmptyRoundTrip('{', '}', rest);
      } else {
        ObjectRoundTrip(v, rest);
      }
  }

  lemma EmptyRoundTrip(open: char, close: char, rest: string)
    requires !Space(close)
    ensures var t := [open, close] + rest; t[1..] == [close] + rest && Skip(t[1..]) == t[1..] && t[1..][1..] == rest
    ensures Starts(([open, close] + rest)[1..], [close])
  {
    assert ([open, close] + rest)[1..] == [close] + rest;
    Cons(close, rest);
  }

  lemma ItemsOpen(items: seq<Json>, rest: string)
    requires items != []
    ensures var u := PrintItems(items) + rest; Skip(u) == u && !Starts(u, "]")
  {
    PrintOpens(items[0]);
    Differs(PrintItems(items) + rest, "]");
  }

  lemma LastItem(t: string, v: Json, rest: string)
    requires ParseValue(t) == Good(v, "]" + rest)
    ensures ParseItems(t) == Good([v], rest)
  {
    Cons(']', rest);
  }

  lemma MoreItems(t: string, v: Json, u: string, others: seq<Json>, rest: string)
    requires ParseValue(t) == Good(v, "," + u) && Skip(u) == u && ParseItems(u) == Good(others, rest)
    ensures ParseItems(t) == Good([v] + others, rest)
  {
    Cons(',', u);
    Differs("," + u, "]");
  }

  lemma {:induction false} ItemsRoundTrip(items: seq<Json>, rest: string)
    requires items != []
    ensures ParseItems(PrintItems(items) + rest) == Good(items, rest)
    decreases items
  {
    if |items| == 1 {
      Join(Print(items[0]), "]", rest);
      ParsePrint(items[0], "]" + rest);
      LastItem(PrintItems(items) + rest, items[0], rest);
      assert [items[0]] == items;
    } else {
      var u := PrintItems(items[1..]) + rest;
      JoinThree(Print(items[0]), ",", PrintItems(items[1..]), rest);
      ParsePrint(items[0], "," + u);
      ItemsOpen(items[1..], rest);
      ItemsRoundTrip(items[1..], rest);
      MoreItems(PrintItems(items) + rest, items[0], u, items[1..], rest);
      assert [items[0]] + items[1..] == items;
    }
  }

  lemma JoinThree(a: string, b: string, c: string, d: string)
    ensures a + (b + c) + d == a + (b + (c + d))
  {
  }

  lemma {:induction false} MemberRoundTrip(key: string, v: Json, rest: string)
    requires Closer(rest)
    ensures ParseMember(PrintMember(key, v) + rest) == Good((key, v), rest)
    decreases v, 2
  {
    var after := ":" + Print(v) + rest;
    Join(Quoted(key), ":" + Print(v), rest);
    QuotedRoundTrip(key, after);
    Join(":", Print(v), rest);
    Cons(':', Print(v) + rest);
    PrintOpens(v);
    ParsePrint(v, rest);
  }

  lemma MembersOpen(keys: seq<string>, v: Json, rest: string)
    requires v.Obj? && keys != [] && forall i :: 0 <= i < |keys| ==> keys[i] in v.fields
    ensures var u := PrintMembers(keys, v) + rest; Skip(u) == u && !Starts(u, "}")
  {
    assert (PrintMembers(keys, v) + rest)[0] == '"';
    Differs(PrintMembers(keys, v) + rest, "}");
  }

  lemma PairsStep(keys: seq<string>, fields: map<string, Json>)
    requires keys != [] && forall i :: 0 <= i < |keys| ==> keys[i] in fields
    ensures PairsOf(keys, fields) == [(keys[0], fields[keys[0]])] + PairsOf(keys[1..], fields)
    ensures |keys| == 1 ==> PairsOf(keys, fields) == [(keys[0], fields[keys[0]])]
  {
  }

  lemma LastMember(t: string, m: (string, Json), rest: string)
    requires ParseMember(t) == Good(m, "}" + rest)
    ensures ParseMembers(t) == Good([m], rest)
  {
    Cons('}', rest);
  }

  lemma MoreMembers(t: string, m: (string, Json), u: string, others: seq<(string, Json)>, rest: string)
    requires ParseMember(t) == Good(m, "," + u) && Skip(u) == u && ParseMembers(u) == Good(others, rest)
    ensures ParseMembers(t) == Good([m] + others, rest)
  {
    Cons(',', u);
    Differs("," + u, "}");
  }

  lemma {:induction false} MembersRoundTrip(keys: seq<string>, v: Json, rest: string)
    requires v.Obj? && keys != [] && forall i :: 0 <= i < |keys| ==> keys[i] in v.fields
    ensures ParseMembers(PrintMembers(keys, v) + rest) == Good(PairsOf(keys, v.fields), rest)
    decreases v, 0, |keys|
  {
    var key, value := keys[0], v.fields[keys[0]];
    if |keys| == 1 {
      Join(PrintMember(key, value), "}", rest);
      MemberRoundTrip(key, value, "}" + rest);
      LastMember(PrintMembers(keys, v) + rest, (key, value), rest);
      PairsStep(keys, v.fields);
    } else {
      var u := PrintMembers(keys[1..], v) + rest;
      JoinThree(PrintMember(key, value), ",", PrintMembers(keys[1..], v), rest);
      MemberRoundTrip(key, value, "," + u);
      MembersOpen(keys[1..], v, rest);
      MembersRoundTrip(keys[1..], v, rest);
      MoreMembers(PrintMembers(keys, v) + rest, (key, value), u, PairsOf(keys[1..], v.fields), rest);
      PairsStep(keys, v.fields);
    }
  }

  lemma WholeObject(u: string, pairs: seq<(string, Json)>, rest: string)
    requires Skip(u) == u && !Starts(u, "}") && ParseMembers(u) == Good(pairs, rest) && Unique(pairs).Some?
    ensures ParseValue("{" + u) == Good(Obj(Unique(pairs).value), rest)
  {
    Cons('{', u);
  }

  lemma PrintObject(v: Json)
    requires v.Obj? && v.fields != map[]
    ensures Sorted(v.fields.Keys) != [] && Print(v) == "{" + PrintMembers(Sorted(v.fields.Keys), v)
  {
    var k :| k in v.fields;
    assert k in Sorted(v.fields.Keys);
  }

  lemma ObjectParts(keys: seq<string>, v: Json, rest: string)
    requires v.Obj? && keys != [] && (forall i :: 0 <= i < |keys| ==> keys[i] in v.fields)
    requires ParseMembers(PrintMembers(keys, v) + rest) == Good(PairsOf(keys, v.fields), rest)
    requires Unique(PairsOf(keys, v.fields)) == Some(v.fields)
    ensures ParseValue("{" + PrintMembers(keys, v) + rest) == Good(v, rest)
  {
    Join("{", PrintMembers(keys, v), rest);
    MembersOpen(keys, v, rest);
    WholeObject(PrintMembers(keys, v) + rest, PairsOf(keys, v.fields), rest);
  }

  lemma {:induction false} ObjectRoundTrip(v: Json, rest: string)
    requires v.Obj? && v.fields != map[] && Closer(rest)
    ensures ParseValue(Print(v) + rest) == Good(v, rest)
    decreases v, 0
  {
    PrintObject(v);
    UniqueOfFields(v.fields);
    MembersRoundTrip(Sorted(v.fields.Keys), v, rest);
    ObjectParts(Sorted(v.fields.Keys), v, rest);
  }

  // ----- The canonical gate -----

  function Canonical(v: Json): string {
    Print(v) + "\n"
  }

  /** `_read_canonical_json`: the text has to be what its own value prints as. */
  function ReadCanonical(text: string): Outcome<Json> {
    var v := Parse(text);
    if v.Some? && Canonical(v.value) == text then Done(v.value) else Defect
  }

  lemma ParseCanonical(v: Json)
    ensures Parse(Canonical(v)) == Some(v)
  {
    PrintOpens(v);
    ParsePrint(v, "\n");
    assert Skip("\n") == Skip("") == "";
  }

  /** The gate lets exactly one text through for each value, and finds that value in it. */
  lemma CanonicalGate(text: string, v: Json)
    ensures ReadCanonical(text) == Done(v) <==> text == Canonical(v)
  {
    ParseCanonical(v);
  }
}
