// The `SET` update expression that `VideoRepository.update_fields` builds for
// DynamoDB's `update_item`: "SET #k1 = :k1, #k2 = :k2, ...", a names map
// "#k" -> k and a values map ":k" -> v. The module also models how DynamoDB reads
// such an expression back (the parse and the assignment), so that the round trip
// "building then evaluating sets exactly the listed attributes" can be proved.

module UpdateExpression {
  import opened Common

  /** A Python dict of fields in insertion order. */
  type Fields = seq<(string, AttrValue)>

  /** Dict keys are unique. */
  predicate DistinctKeys(fields: Fields)
  {
    forall i, j :: 0 <= i < j < |fields| ==> fields[i].0 != fields[j].0
  }

  /** The attribute names a field list mentions. */
  function KeySet(fields: Fields): (r: set<string>)
    ensures forall i :: 0 <= i < |fields| ==> fields[i].0 in r
  {
    set i | 0 <= i < |fields| :: fields[i].0
  }

  lemma KeySetConcat(a: Fields, b: Fields)
    ensures KeySet(a + b) == KeySet(a) + KeySet(b)
  {
    forall k | k in KeySet(a + b) ensures k in KeySet(a) + KeySet(b) {
      var i :| 0 <= i < |a + b| && (a + b)[i].0 == k;
      if i >= |a| { assert (a + b)[i] == b[i - |a|]; }
    }
    forall k | k in KeySet(a) + KeySet(b) ensures k in KeySet(a + b) {
      if k in KeySet(a) {
        var i :| 0 <= i < |a| && a[i].0 == k;
        assert (a + b)[i] == a[i];
      } else {
        var i :| 0 <= i < |b| && b[i].0 == k;
        assert (a + b)[|a| + i] == b[i];
      }
    }
  }

  /** Two dicts with no key in common concatenate to a dict. */
  lemma DistinctConcat(a: Fields, b: Fields)
    requires DistinctKeys(a) && DistinctKeys(b) && KeySet(a) !! KeySet(b)
    ensures DistinctKeys(a + b)
  {
    forall i, j | 0 <= i < j < |a + b| ensures (a + b)[i].0 != (a + b)[j].0 {
      if j < |a| {
        assert (a + b)[i] == a[i] && (a + b)[j] == a[j];
      } else if i >= |a| {
        assert (a + b)[i] == b[i - |a|] && (a + b)[j] == b[j - |a|];
      } else {
        assert (a + b)[i] == a[i] && (a + b)[j] == b[j - |a|];
        assert a[i].0 in KeySet(a) && b[j - |a|].0 in KeySet(b);
      }
    }
  }

  lemma AllAttrNamesConcat(a: Fields, b: Fields)
    requires AllAttrNames(a) && AllAttrNames(b)
    ensures AllAttrNames(a + b)
  {
    forall i | 0 <= i < |a + b| ensures IsAttrName((a + b)[i].0) {
      if i < |a| { assert (a + b)[i] == a[i]; } else { assert (a + b)[i] == b[i - |a|]; }
    }
  }

  /** The characters DynamoDB accepts in a placeholder after `#` or `:`. */
  predicate IsNameChar(c: char)
  {
    ('a' <= c <= 'z') || ('A' <= c <= 'Z') || ('0' <= c <= '9') || c == '_'
  }

  predicate IsAttrName(k: string)
  {
    k != [] && forall i :: 0 <= i < |k| ==> IsNameChar(k[i])
  }

  function Clause(k: string): string
  {
    "#" + k + " = :" + k
  }

  function Clauses(fields: Fields): (r: seq<string>)
    ensures |r| == |fields|
    ensures forall i :: 0 <= i < |fields| ==> r[i] == Clause(fields[i].0)
  {
    if fields == [] then [] else Clauses(fields[..|fields| - 1]) + [Clause(fields[|fields| - 1].0)]
  }

  /** `{f"#{k}": k for k in fields.keys()}` */
  function NamesFor(fields: Fields): map<string, string>
  {
    if fields == [] then map[]
    else
      var k := fields[|fields| - 1].0;
      NamesFor(fields[..|fields| - 1])["#" + k := k]
  }

  /** The values map the loop fills in: `expr_vals[f":{key}"] = value`. */
  function ValuesFor(fields: Fields): map<string, AttrValue>
  {
    if fields == [] then map[]
    else
      var (k, v) := fields[|fields| - 1];
      ValuesFor(fields[..|fields| - 1])[":" + k := v]
  }

  /** The three arguments `update_fields` hands to `update_item`. */
  datatype UpdateRequest = UpdateRequest(expression: string, names: map<string, string>, values: map<string, AttrValue>)

  function RequestFor(fields: Fields): UpdateRequest
  {
    UpdateRequest("SET " + Join(", ", Clauses(fields)), NamesFor(fields), ValuesFor(fields))
  }

  /** The loop of `update_fields` that builds the expression, and the names
      comprehension after it. */
  method BuildUpdateRequest(fields: Fields) returns (req: UpdateRequest)
    ensures req == RequestFor(fields)
  {
    var parts: seq<string> := [];
    var exprVals: map<string, AttrValue> := map[];
    var names: map<string, string> := map[];
    var i := 0;
    while i < |fields|
      invariant 0 <= i <= |fields|
      invariant parts == Clauses(fields[..i])
      invariant exprVals == ValuesFor(fields[..i])
      invariant names == NamesFor(fields[..i])
    {
      var (key, value) := fields[i];
      assert fields[..i + 1][..i] == fields[..i];
      parts := parts + [Clause(key)];
      exprVals := exprVals[":" + key := value];
      names := names["#" + key := key];
      i := i + 1;
    }
    assert fields[..|fields|] == fields;
    req := UpdateRequest("SET " + Join(", ", parts), names, exprVals);
  }

  // ---------------------------------------------------------------------------
  // DynamoDB's side: reading the expression and applying it to an item.

  /** One `name = value` clause, with white space around both sides ignored. */
  function ParseClause(piece: string): Option<(string, string)>
  {
    var p := Strip(piece);
    if '=' in p && '=' !in DropThrough(p, '=') then
      Some((Strip(TakeUntil(p, '=')), Strip(DropThrough(p, '='))))
    else None
  }

  /** The comma-separated clauses after `SET `. */
  function ParseClauses(s: string): Option<seq<(string, string)>>
    decreases |s|
  {
    if ',' in s then
      match (ParseClause(TakeUntil(s, ',')), ParseClauses(DropThrough(s, ',')))
      case (Some(c), Some(rest)) => Some([c] + rest)
      case _ => None
    else
      match ParseClause(s)
      case Some(c) => Some([c])
      case None => None
  }

  function ParseSet(expression: string): Option<seq<(string, string)>>
  {
    if "SET " <= expression then ParseClauses(expression[4..]) else None
  }

  /** Applying parsed assignments: each `#name = :value` sets attribute
      `names[#name]` to `values[:value]`; an unknown placeholder is a
      validation error. */
  function ApplyAssignments(item: Item, assignments: seq<(string, string)>, names: map<string, string>,
                            values: map<string, AttrValue>): Result<Item>
    decreases |assignments|
  {
    if assignments == [] then Ok(item)
    else
      var (n, v) := assignments[0];
      if n in names && v in values then ApplyAssignments(item[names[n] := values[v]], assignments[1..], names, values)
      else Raised(ClientError("ValidationException"))
  }

  /** How DynamoDB evaluates an update request against the stored item. */
  function Evaluate(item: Item, req: UpdateRequest): Result<Item>
  {
    match ParseSet(req.expression)
    case Some(assignments) => ApplyAssignments(item, assignments, req.names, req.values)
    case None => Raised(ClientError("ValidationException"))
  }

  /** The dict `fields` as a map (later keys win, which never matters for a dict). */
  function FieldsMap(fields: Fields): map<string, AttrValue>
  {
    if fields == [] then map[]
    else
      var (k, v) := fields[|fields| - 1];
      FieldsMap(fields[..|fields| - 1])[k := v]
  }

  function Placeholders(fields: Fields): (r: seq<(string, string)>)
    ensures |r| == |fields|
    ensures forall i :: 0 <= i < |fields| ==> r[i] == ("#" + fields[i].0, ":" + fields[i].0)
  {
    if fields == [] then [] else Placeholders(fields[..|fields| - 1]) + [("#" + fields[|fields| - 1].0, ":" + fields[|fields| - 1].0)]
  }

  // ---------------------------------------------------------------------------
  // The round trip

  lemma NameCharsAreNotSpecial(k: string)
    requires IsAttrName(k)
    ensures ',' !in k && '=' !in k
    ensures !IsSpace(k[|k| - 1])
  {
    forall i | 0 <= i < |k| ensures k[i] != ',' && k[i] != '=' {
      assert IsNameChar(k[i]);
    }
    assert IsNameChar(k[|k| - 1]);
    PrintableIsNotSpace(k[|k| - 1]);
  }

  /** The two sides of one clause, as written. */
  lemma {:induction false} ClauseSides(k: string)
    requires IsAttrName(k)
    ensures '=' in Clause(k)
    ensures TakeUntil(Clause(k), '=') == "#" + k + " "
    ensures DropThrough(Clause(k), '=') == " :" + k
  {
    NameCharsAreNotSpecial(k);
    var left := "#" + k + " ";
    var right := " :" + k;
    assert Clause(k) == left + ['='] + right;
    assert '=' !in left;
    TakeUntilConcat(left, '=', right);
    var d := DropThrough(Clause(k), '=');
    DropThroughSplits(Clause(k), '=');
    assert Clause(k) == left + ['='] + d;
    PrefixCancel(left + ['='], right, d);
  }

  lemma {:induction false} StripClause(k: string, lead: string)
    requires IsAttrName(k)
    requires lead == "" || lead == " "
    ensures Strip(lead + Clause(k)) == Clause(k)
  {
    NameCharsAreNotSpecial(k);
    var c := Clause(k);
    assert c[0] == '#';
    PrintableIsNotSpace('#');
    StripLeftOfNonSpace(c);
    if lead == " " {
      StripLeftSkipsSpace(c);
    } else {
      assert lead + c == c;
    }
    assert c[|c| - 1] == k[|k| - 1];
    StripRightOfNonSpace(c);
  }

  lemma {:induction false} StripSides(k: string)
    requires IsAttrName(k)
    ensures Strip("#" + k + " ") == "#" + k
    ensures Strip(" :" + k) == ":" + k
  {
    NameCharsAreNotSpecial(k);
    var l := "#" + k;
    assert l[0] == '#' && l[|l| - 1] == k[|k| - 1];
    PrintableIsNotSpace('#');
    PrintableIsNotSpace(':');
    StripLeftOfNonSpace(l + " ");
    StripRightSkipsSpace(l);
    StripRightOfNonSpace(l);
    var r := ":" + k;
    assert r[0] == ':' && r[|r| - 1] == k[|k| - 1];
    assert " :" + k == " " + r;
    StripLeftSkipsSpace(r);
    StripLeftOfNonSpace(r);
    StripRightOfNonSpace(r);
  }

  lemma {:induction false} ParseOneClause(k: string, lead: string)
    requires IsAttrName(k)
    requires lead == "" || lead == " "
    ensures ParseClause(lead + Clause(k)) == Some(("#" + k, ":" + k))
  {
    StripClause(k, lead);
    ClauseSides(k);
    StripSides(k);
    NameCharsAreNotSpecial(k);
    assert '=' !in " :" + k;
  }

  predicate AllAttrNames(fields: Fields)
  {
    forall i :: 0 <= i < |fields| ==> IsAttrName(fields[i].0)
  }

  /** Splitting off the first clause of a serialised list of at least two. */
  lemma {:induction false} SplitFirstClause(first: string, rest: string, lead: string)
    requires ',' !in lead + first
    ensures ',' in lead + (first + ", " + rest)
    ensures TakeUntil(lead + (first + ", " + rest), ',') == lead + first
    ensures DropThrough(lead + (first + ", " + rest), ',') == " " + rest
  {
    var s := lead + (first + ", " + rest);
    assert s == (lead + first) + [','] + (" " + rest);
    TakeUntilConcat(lead + first, ',', " " + rest);
    var d := DropThrough(s, ',');
    DropThroughSplits(s, ',');
    assert s == (lead + first) + [','] + d;
    PrefixCancel((lead + first) + [','], " " + rest, d);
  }

  lemma TailsAgree(fields: Fields)
    requires fields != []
    ensures Clauses(fields[1..]) == Clauses(fields)[1..]
    ensures Placeholders(fields[1..]) == Placeholders(fields)[1..]
  {
    var tail := fields[1..];
    forall i | 0 <= i < |tail|
      ensures Clauses(tail)[i] == Clauses(fields)[1..][i] && Placeholders(tail)[i] == Placeholders(fields)[1..][i]
    {
      assert tail[i] == fields[i + 1];
    }
  }

  lemma ParseClausesCons(first: string, rest: string, lead: string, c: (string, string), cs: seq<(string, string)>)
    requires ',' !in lead + first
    requires ParseClause(lead + first) == Some(c)
    requires ParseClauses(" " + rest) == Some(cs)
    ensures ParseClauses(lead + (first + ", " + rest)) == Some([c] + cs)
  {
    SplitFirstClause(first, rest, lead);
  }

  lemma ParseClausesSingle(s: string, c: (string, string))
    requires ',' !in s
    requires ParseClause(s) == Some(c)
    ensures ParseClauses(s) == Some([c])
  {
  }

  lemma ClauseHasNoComma(k: string, lead: string)
    requires IsAttrName(k)
    requires lead == "" || lead == " "
    ensures ',' !in lead + Clause(k)
  {
    NameCharsAreNotSpecial(k);
  }

  lemma AllAttrNamesTail(fields: Fields)
    requires fields != [] && AllAttrNames(fields)
    ensures AllAttrNames(fields[1..])
  {
    var tail := fields[1..];
    forall i | 0 <= i < |tail| ensures IsAttrName(tail[i].0) {
      assert tail[i] == fields[i + 1];
    }
  }

  /** DynamoDB reads back exactly the placeholder pairs that were serialised. */
  lemma {:induction false} ParseClausesRoundTrip(fields: Fields, lead: string)
    requires AllAttrNames(fields) && fields != []
    requires lead == "" || lead == " "
    ensures ParseClauses(lead + Join(", ", Clauses(fields))) == Some(Placeholders(fields))
    decreases |fields|
  {
    var cs := Clauses(fields);
    var ps := Placeholders(fields);
    var k := fields[0].0;
    var c := ("#" + k, ":" + k);
    ClauseHasNoComma(k, lead);
    ParseOneClause(k, lead);
    assert cs[0] == Clause(k) && ps[0] == c;
    if |fields| == 1 {
      assert Join(", ", cs) == cs[0];
      Singleton(ps);
      ParseClausesSingle(lead + Clause(k), c);
    } else {
      TailsAgree(fields);
      AllAttrNamesTail(fields);
      ParseClausesRoundTrip(fields[1..], " ");
      JoinCons(", ", cs);
      ParseClausesCons(Clause(k), Join(", ", cs[1..]), lead, c, ps[1..]);
      HeadTail(ps);
    }
  }

  lemma {:induction false} ValuesForLookup(fields: Fields, i: nat)
    requires DistinctKeys(fields) && i < |fields|
    ensures ":" + fields[i].0 in ValuesFor(fields) && ValuesFor(fields)[":" + fields[i].0] == fields[i].1
    decreases |fields|
  {
    var init := fields[..|fields| - 1];
    if i < |fields| - 1 {
      assert init[i] == fields[i];
      assert DistinctKeys(init) by {
        forall a, b | 0 <= a < b < |init| ensures init[a].0 != init[b].0 { assert init[a] == fields[a] && init[b] == fields[b]; }
      }
      ValuesForLookup(init, i);
      PrefixCancel(":", fields[i].0, fields[|fields| - 1].0);
    }
  }

  lemma {:induction false} NamesForLookup(fields: Fields, i: nat)
    requires i < |fields|
    ensures "#" + fields[i].0 in NamesFor(fields) && NamesFor(fields)["#" + fields[i].0] == fields[i].0
    decreases |fields|
  {
    var init := fields[..|fields| - 1];
    var k := fields[|fields| - 1].0;
    PrefixCancel("#", fields[i].0, k);
    if i < |fields| - 1 && fields[i].0 != k {
      assert init[i] == fields[i];
      NamesForLookup(init, i);
    }
  }

  /** `dict(fields)` maps each listed name to its listed value when names are
      distinct. */
  lemma {:induction false} FieldsMapLookup(fields: Fields, i: nat)
    requires DistinctKeys(fields) && i < |fields|
    ensures fields[i].0 in FieldsMap(fields) && FieldsMap(fields)[fields[i].0] == fields[i].1
    decreases |fields|
  {
    var init := fields[..|fields| - 1];
    if i < |fields| - 1 {
      forall a, b | 0 <= a < b < |init| ensures init[a].0 != init[b].0 {
        assert init[a] == fields[a] && init[b] == fields[b];
      }
      assert init[i] == fields[i];
      FieldsMapLookup(init, i);
    }
  }

  /** The keys of `dict(fields)` are the listed names. */
  lemma {:induction false} FieldsMapKeys(fields: Fields)
    ensures FieldsMap(fields).Keys == KeySet(fields)
    decreases |fields|
  {
    if fields != [] {
      var init := fields[..|fields| - 1];
      var last := fields[|fields| - 1];
      FieldsMapKeys(init);
      assert init + [last] == fields;
      KeySetConcat(init, [last]);
      assert KeySet([last]) == {last.0};
    }
  }

  /** A name no field carries is not a key of `dict(fields)`. */
  lemma FieldsMapAvoids(fields: Fields, name: string)
    requires forall i :: 0 <= i < |fields| ==> fields[i].0 != name
    ensures name !in FieldsMap(fields)
  {
    FieldsMapKeys(fields);
  }

  lemma FieldsMapStep(item: Item, fields: Fields, i: nat)
    requires i < |fields|
    ensures (item + FieldsMap(fields[..i]))[fields[i].0 := fields[i].1] == item + FieldsMap(fields[..i + 1])
  {
    assert fields[..i + 1][..i] == fields[..i];
    assert fields[..i + 1][i] == fields[i];
  }

  /** Every attribute the request can target is one of the field names. */
  lemma {:induction false} NamesForTargets(fields: Fields)
    ensures forall n :: n in NamesFor(fields) ==> exists i :: 0 <= i < |fields| && NamesFor(fields)[n] == fields[i].0
    decreases |fields|
  {
    if fields != [] {
      var init := fields[..|fields| - 1];
      NamesForTargets(init);
      forall n | n in NamesFor(fields) ensures exists i :: 0 <= i < |fields| && NamesFor(fields)[n] == fields[i].0 {
        if n == "#" + fields[|fields| - 1].0 {
          assert NamesFor(fields)[n] == fields[|fields| - 1].0;
        } else {
          var i :| 0 <= i < |init| && NamesFor(init)[n] == init[i].0;
          assert init[i] == fields[i];
        }
      }
    }
  }

  /** A request built from attribute names never targets an attribute whose
      name holds a character outside the placeholder alphabet, such as the
      table's key attributes `qut-username` and `sort-key`. */
  lemma NamesForAvoids(fields: Fields, attr: string, pos: nat)
    requires AllAttrNames(fields)
    requires pos < |attr| && !IsNameChar(attr[pos])
    ensures attr !in NamesFor(fields).Values
  {
    NamesForTargets(fields);
    forall n | n in NamesFor(fields) ensures NamesFor(fields)[n] != attr {
      var i :| 0 <= i < |fields| && NamesFor(fields)[n] == fields[i].0;
      assert IsAttrName(fields[i].0);
    }
  }

  /** Applying the placeholder pairs of a suffix of `fields` on top of what the
      prefix already set. */
  lemma {:induction false} ApplyPlaceholders(item: Item, fields: Fields, i: nat)
    requires DistinctKeys(fields) && i <= |fields|
    ensures ApplyAssignments(item + FieldsMap(fields[..i]), Placeholders(fields)[i..], NamesFor(fields), ValuesFor(fields))
            == Ok(item + FieldsMap(fields))
    decreases |fields| - i
  {
    var ps := Placeholders(fields);
    if i == |fields| {
      assert ps[i..] == [];
      assert fields[..i] == fields;
    } else {
      var k := fields[i].0;
      assert ps[i..][0] == ("#" + k, ":" + k);
      assert ps[i..][1..] == ps[i + 1..];
      NamesForLookup(fields, i);
      ValuesForLookup(fields, i);
      FieldsMapStep(item, fields, i);
      ApplyPlaceholders(item, fields, i + 1);
    }
  }

  /** Round trip: evaluating the request `update_fields` builds sets exactly the
      listed attributes to the listed values and leaves every other attribute of
      the item as it was. */
  lemma UpdateRequestRoundTrip(item: Item, fields: Fields)
    requires fields != [] && DistinctKeys(fields) && AllAttrNames(fields)
    ensures Evaluate(item, RequestFor(fields)) == Ok(item + FieldsMap(fields))
  {
    var body := Join(", ", Clauses(fields));
    assert RequestFor(fields) == UpdateRequest("SET " + body, NamesFor(fields), ValuesFor(fields));
    SetPrefix(body);
    ParseClausesRoundTrip(fields, "");
    assert "" + body == body;
    StartOfApply(item, fields);
    ApplyPlaceholders(item, fields, 0);
  }

  lemma SetPrefix(body: string)
    ensures ParseSet("SET " + body) == ParseClauses(body)
  {
    assert ("SET " + body)[4..] == body;
  }

  lemma StartOfApply(item: Item, fields: Fields)
    ensures item + FieldsMap(fields[..0]) == item
    ensures Placeholders(fields)[0..] == Placeholders(fields)
  {
    assert fields[..0] == [];
  }

  /** A concrete instance of the serialised form. */
  lemma StatusUpdateExpression()
    ensures RequestFor([("status", S("failed"))]).expression == "SET #status = :status"
    ensures RequestFor([("status", S("failed"))]).names == map["#status" := "status"]
    ensures RequestFor([("status", S("failed"))]).values == map[":status" := S("failed")]
  {
    var f := [("status", S("failed"))];
    assert f[..|f| - 1] == [];
    assert Clauses(f) == [Clause("status")];
    assert "#" + "status" == "#status" && ":" + "status" == ":status";
    assert NamesFor(f[..|f| - 1]) == map[];
    assert ValuesFor(f[..|f| - 1]) == map[];
  }
}
