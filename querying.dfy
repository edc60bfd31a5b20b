/**
  * AggExecutionNode: the create-table-as-select node of a query plan that also publishes its
  * aggregation metadata and its select query to the nodes that depend on it.
  */
module Querying {
  import opened Values
  import opened SqlObject

  /** The generator of unique table and alias names; its counter is not part of this model. */
  class IdCreator {
  }

  /** Aggregation metadata (grouping and measure structure); its content is not part of this model. */
  class AggMeta {
    constructor ()
    {
    }
  }

  /** The key-value record a node hands to its dependents after it has run. */
  class ExecutionInfoToken {
    var entries: map<string, object?>

    constructor (entries: map<string, object?>)
      ensures this.entries == entries
    {
      this.entries := entries;
    }

    method SetKeyValue(key: string, value: object?)
      modifies this
      ensures entries == old(entries)[key := value]
    {
      entries := entries[key := value];
    }
  }

  /**
    * The fields AggExecutionNode inherits from CreateTableAsSelectNode and ExecutableNodeBase
    * (dependencies, subscribers, identifiers). Their declarations are not part of this model, so
    * one opaque value stands for all of them; `copyFields` copies it.
    */
  datatype InheritedFields = InheritedFields(state: seq<int>)

  /** What SubqueriesToDependentNodes leaves behind: the node's new dependency state and the query's rewritten content. */
  datatype SubqueryExtraction = SubqueryExtraction(fields: InheritedFields, queryItems: seq<string>)

  /** The exceptions the node's own code can raise. */
  datatype NodeError = NullPointerException

  const AggMetaKey := "aggMeta"
  const DependentQueryKey := "dependentQuery"

  /**
    * The entries of the token createToken returns: the inherited token's entries with the
    * aggregation metadata and the select query added under their keys.
    */
  function WithAggEntries(inherited: map<string, object?>, meta: AggMeta, query: SelectQuery?): (r: map<string, object?>)
    ensures AggMetaKey in r && r[AggMetaKey] == meta
    ensures DependentQueryKey in r && r[DependentQueryKey] == query
    ensures r.Keys == inherited.Keys + {AggMetaKey, DependentQueryKey}
    ensures forall k :: k in inherited && k != AggMetaKey && k != DependentQueryKey ==> r[k] == inherited[k]
  {
    inherited[AggMetaKey := meta][DependentQueryKey := query]
  }

  class AggExecutionNode {
    const namer: IdCreator
    var selectQuery: SelectQuery?
    var aggMeta: AggMeta
    var inherited: InheritedFields

    /** Every node starts with its own, new aggregation metadata. */
    constructor (namer: IdCreator, query: SelectQuery?, inherited: InheritedFields)
      ensures this.namer == namer && selectQuery == query && this.inherited == inherited
      ensures fresh(aggMeta)
    {
      this.namer := namer;
      selectQuery := query;
      this.inherited := inherited;
      aggMeta := new AggMeta();
    }

    /**
      * Builds a node without a query, lets the subquery extraction rewrite the query and the
      * node's dependencies, then installs the (rewritten) query itself as the node's query.
      * `initial` is what the inherited constructor leaves in the node; `extraction` is what
      * SubqueriesToDependentNodes does, which is not part of this model.
      */
    static method Create(namer: IdCreator, query: SelectQuery, initial: InheritedFields, extraction: SubqueryExtraction)
      returns (node: AggExecutionNode)
      modifies query
      ensures fresh(node) && fresh(node.aggMeta)
      ensures node.namer == namer && node.selectQuery == query
      ensures node.inherited == extraction.fields && query.items == extraction.queryItems
    {
      node := new AggExecutionNode(namer, null, initial);
      node.inherited := extraction.fields;
      query.items := extraction.queryItems;
      node.selectQuery := query;
    }

    /** The override adds nothing: the inherited createQuery's answer for the same tokens. */
    function CreateQuery<Q>(tokens: seq<ExecutionInfoToken>, inheritedCreateQuery: seq<ExecutionInfoToken> -> Q): (q: Q)
      ensures q == inheritedCreateQuery(tokens)
    {
      inheritedCreateQuery(tokens)
    }

    /**
      * Adds "aggMeta" and "dependentQuery" to the token the inherited createToken produced
      * (passed in as `token`), and returns that same token.
      */
    method CreateToken(token: ExecutionInfoToken) returns (r: ExecutionInfoToken)
      modifies token
      ensures r == token
      ensures r.entries == WithAggEntries(old(token.entries), aggMeta, selectQuery)
    {
      token.SetKeyValue(AggMetaKey, aggMeta);
      token.SetKeyValue(DependentQueryKey, selectQuery);
      r := token;
    }

    /**
      * Makes a new node around this node's current query, copies the inherited fields, and then
      * gives THIS node (not the copy) a fresh copy of its query. The copy gets new aggregation
      * metadata. With no query the dereference throws and this node is left as it was.
      */
    method DeepCopy() returns (r: Result<AggExecutionNode, NodeError>)
      modifies this`selectQuery
      ensures old(selectQuery) == null ==> r == Failure(NullPointerException) && selectQuery == null
      ensures old(selectQuery) != null ==>
        && r.Success? && fresh(r.value) && r.value != this
        && r.value.selectQuery == old(selectQuery)
        && r.value.namer == namer && r.value.inherited == inherited
        && fresh(r.value.aggMeta) && r.value.aggMeta != aggMeta
        && selectQuery != null && fresh(selectQuery) && selectQuery.items == old(selectQuery.items)
    {
      var node := new AggExecutionNode(namer, selectQuery, inherited);
      if selectQuery == null {
        return Failure(NullPointerException);
      }
      selectQuery := selectQuery.SelectListDeepCopy();
      r := Success(node);
    }

    /** The same metadata object createToken publishes under "aggMeta". */
    function GetMeta(): (m: AggMeta)
      reads this
      ensures m == aggMeta
    {
      aggMeta
    }
  }
}
