/** The text the store methods substitute into their query templates:
    `strings.Join` of an ordered list of `column = :param` conditions, with a
    `WHERE ` prefix only when the list is not empty, and the named arguments
    (`argsKV`) that `sqlx.Named` binds to the `:param` placeholders. */
module SqlClause {
  import opened Foundation

  /** A value bound to a named parameter. */
  datatype SqlArg = IntArg(i: int) | TextArg(s: string) | TimeArg(t: Time)

  /** A filter condition `column = :param`. */
  datatype Condition = Eq(column: string, param: string) {
    function Text(): string { column + " = :" + param }
  }

  /** `strings.Join(parts, sep)`. */
  function Join(parts: seq<string>, sep: string): string {
    if parts == [] then ""
    else if |parts| == 1 then parts[0]
    else parts[0] + sep + Join(parts[1..], sep)
  }

  function Texts(conds: seq<Condition>): (texts: seq<string>)
    ensures |texts| == |conds|
    ensures forall i :: 0 <= i < |conds| ==> texts[i] == conds[i].Text()
  {
    if conds == [] then [] else [conds[0].Text()] + Texts(conds[1..])
  }

  /** The placeholders the conditions mention. */
  function Params(conds: seq<Condition>): set<string> {
    set i | 0 <= i < |conds| :: conds[i].param
  }

  /** Appending a condition adds exactly its placeholder. */
  lemma ParamsAppend(conds: seq<Condition>, c: Condition)
    ensures Params(conds + [c]) == Params(conds) + {c.param}
  {
    var all := conds + [c];
    assert all[|conds|] == c;
    forall p | p in Params(conds) ensures p in Params(all) {
      var i :| 0 <= i < |conds| && conds[i].param == p;
      assert all[i] == conds[i];
    }
  }

  /** The clause substituted into the query: empty when there is no
      condition, otherwise `WHERE ` followed by the conditions joined with
      ` AND `. */
  function WhereClause(conds: seq<Condition>): string {
    if |conds| > 0 then "WHERE " + Join(Texts(conds), " AND ") else ""
  }

  /** The clause is empty exactly when there is no condition, so the query
      is filtered exactly when some condition applies. */
  lemma WhereClauseEmptyIff(conds: seq<Condition>)
    ensures WhereClause(conds) == "" <==> conds == []
    ensures conds != [] ==> WhereClause(conds)[..6] == "WHERE "
  {
  }

  /** A single condition is the clause after `WHERE `. */
  lemma WhereClauseOfOne(c: Condition)
    ensures WhereClause([c]) == "WHERE " + c.Text()
  {
    assert Texts([c]) == [c.Text()];
  }

  /** Two conditions are joined with exactly one ` AND ` between them. */
  lemma WhereClauseOfTwo(a: Condition, b: Condition)
    ensures WhereClause([a, b]) == "WHERE " + a.Text() + " AND " + b.Text()
  {
    var texts := Texts([a, b]);
    assert texts == [a.Text(), b.Text()];
    assert texts[1..] == [b.Text()];
    assert Join(texts, " AND ") == a.Text() + " AND " + Join([b.Text()], " AND ");
  }
}
