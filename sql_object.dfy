/**
  * The SQL object model as far as the core touches it: a select query (whose grammar is not
  * part of this model) and the column that wraps a subquery.
  */
module SqlObject {

  /**
    * Stands for org.verdictdb.core.sqlobject.SelectQuery. Its clauses are kept as one opaque
    * sequence of rendered items; a query built with no arguments has none.
    */
  class SelectQuery {
    var items: seq<string>

    constructor ()
      ensures items == []
    {
      items := [];
    }

    constructor WithItems(items: seq<string>)
      ensures this.items == items
    {
      this.items := items;
    }

    /** A copy with a new identity and the same content. */
    method SelectListDeepCopy() returns (q: SelectQuery)
      ensures fresh(q) && q.items == items
    {
      q := new SelectQuery.WithItems(items);
    }
  }

  /** Structural equality of two (possibly null) queries, as reflection-based `equals` sees it. */
  predicate SameQuery(a: SelectQuery?, b: SelectQuery?)
    reads a, b
  {
    if a == null || b == null then a == b else a.items == b.items
  }

  /** A subquery that may appear in a where clause. */
  class SubqueryColumn {
    var subquery: SelectQuery?

    /** A column around a fresh, empty query. */
    constructor ()
      ensures subquery != null && fresh(subquery) && subquery.items == []
    {
      subquery := new SelectQuery();
    }

    constructor Of(relation: SelectQuery?)
      ensures subquery == relation
    {
      subquery := relation;
    }

    static method GetSubqueryColumn(relation: SelectQuery?) returns (c: SubqueryColumn)
      ensures fresh(c) && c.GetSubquery() == relation
    {
      c := new SubqueryColumn.Of(relation);
    }

    method SetSubquery(relation: SelectQuery?)
      modifies this`subquery
      ensures GetSubquery() == relation
    {
      subquery := relation;
    }

    function GetSubquery(): (r: SelectQuery?)
      reads this
      ensures r == subquery
    {
      subquery
    }

    /** A subquery column is never an aggregate, whatever its query holds. */
    function IsAggregateColumn(): (r: bool)
      ensures !r
    {
      false
    }

    /** "Deep" copying hands back the very same object, so the two share every later update. */
    method DeepCopy() returns (c: SubqueryColumn)
      ensures c == this
    {
      c := this;
    }

    /** Reflection-based `equals` over the single instance field. */
    predicate Equals(other: SubqueryColumn?)
      reads this, other, subquery
      reads if other == null then {} else {other.subquery}
      ensures Equals(other) ==> other != null
      ensures other == this ==> Equals(other)
    {
      other != null && SameQuery(subquery, other.subquery)
    }
  }

  /**
    * A "deep" copy is the original: a subquery set through the copy is the one the original
    * answers with.
    */
  method SetThroughCopy(column: SubqueryColumn, relation: SelectQuery?) returns (copy: SubqueryColumn)
    modifies column
    ensures copy == column
    ensures column.GetSubquery() == relation && copy.GetSubquery() == relation
  {
    copy := column.DeepCopy();
    copy.SetSubquery(relation);
  }

  /** Column equality is reflexive, symmetric, and holds between a column and its copy. */
  lemma ColumnEqualityLaws(a: SubqueryColumn, b: SubqueryColumn)
    ensures a.Equals(a)
    ensures a.Equals(b) <==> b.Equals(a)
    ensures a.subquery == b.subquery ==> a.Equals(b)
  {
  }
}
