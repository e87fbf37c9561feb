/**
 * The profile's symbol structures. A symbol has an id, a kind fixed at
 * construction, and children grouped by context ("test", "argument",
 * "environment"). Children are indexed by the key `context + "." + id`, which
 * must be new; each context also keeps its children in insertion order.
 */
module Symbols {
  import opened Common

  /** The contexts under which children are filed. */
  const TEST_CONTEXT := "test"
  const ARGUMENT_CONTEXT := "argument"
  const ENVIRONMENT_CONTEXT := "environment"

  /** What a symbol is: the concrete class and the attributes it carries beyond its id. */
  datatype SymbolKind =
    | CapabilityKind(description: string, className: string)
    | TestKind
    | ArgumentKind(kindClass: string)
    | EnvironmentKind(value: string)

  /** The key under which a child is filed. */
  function Key(id: string, context: string): string
  {
    context + "." + id
  }

  /** Within one context the key determines the child's id. */
  lemma KeySameContext(id1: string, id2: string, context: string)
    ensures Key(id1, context) == Key(id2, context) ==> id1 == id2
  {
    if Key(id1, context) == Key(id2, context) {
      var n := |context| + 1;
      assert Key(id1, context)[n..] == id1;
      assert Key(id2, context)[n..] == id2;
    }
  }

  /**
   * Contexts without a dot never share a key: the same id may be filed in
   * two different contexts without being reported as a duplicate.
   */
  lemma {:induction false} KeyInjective(id1: string, c1: string, id2: string, c2: string)
    requires '.' !in c1 && '.' !in c2
    ensures Key(id1, c1) == Key(id2, c2) <==> id1 == id2 && c1 == c2
  {
    var k1, k2 := Key(id1, c1), Key(id2, c2);
    if k1 == k2 {
      assert forall i | 0 <= i < |c1| :: k1[i] == c1[i] != '.';
      assert forall i | 0 <= i < |c2| :: k2[i] == c2[i] != '.';
      assert k1[|c1|] == '.' && k2[|c2|] == '.';
      assert |c1| == |c2|;
      assert c1 == k1[..|c1|] == k2[..|c2|] == c2;
      KeySameContext(id1, id2, c1);
    }
  }

  lemma ContextsAreDistinct()
    ensures Key("x", TEST_CONTEXT) != Key("x", ARGUMENT_CONTEXT)
    ensures Key("x", ARGUMENT_CONTEXT) != Key("x", ENVIRONMENT_CONTEXT)
    ensures Key("x", TEST_CONTEXT) != Key("x", ENVIRONMENT_CONTEXT)
  {
    KeyInjective("x", TEST_CONTEXT, "x", ARGUMENT_CONTEXT);
    KeyInjective("x", ARGUMENT_CONTEXT, "x", ENVIRONMENT_CONTEXT);
    KeyInjective("x", TEST_CONTEXT, "x", ENVIRONMENT_CONTEXT);
  }

  /** The message of the error raised for a key that is already taken. */
  function DuplicateKeyMessage(key: string): string
  {
    "Symbol with key [" + key + "] already exists"
  }

  class Symbol {
    const id: string
    const kind: SymbolKind
    /** Children by key. */
    var symbols: map<string, Symbol>
    /** Children by context, in the order they were added. */
    var contextMap: map<string, seq<Symbol>>

    /**
     * Every listed child is filed under its key in its context, and no
     * context lists two children with the same id.
     */
    ghost predicate Valid()
      reads this
    {
      (forall c | c in contextMap :: forall i | 0 <= i < |contextMap[c]| ::
        Key(contextMap[c][i].id, c) in symbols && symbols[Key(contextMap[c][i].id, c)] == contextMap[c][i])
      && (forall c | c in contextMap :: forall i, j | 0 <= i < j < |contextMap[c]| ::
        contextMap[c][i].id != contextMap[c][j].id)
    }

    constructor (id: string, kind: SymbolKind)
      ensures this.id == id && this.kind == kind
      ensures symbols == map[] && contextMap == map[]
      ensures Valid()
    {
      this.id := id;
      this.kind := kind;
      symbols := map[];
      contextMap := map[];
    }

    /** The children filed under `context`, in insertion order; none if the context was never used. */
    function GetSymbolsInContext(context: string): (r: seq<Symbol>)
      reads this
      ensures context !in contextMap ==> r == []
    {
      if context in contextMap then contextMap[context] else []
    }

    /** The child with `id` under `context`, if there is one. */
    function GetSymbol(id: string, context: string): Option<Symbol>
      reads this
    {
      var key := Key(id, context);
      if key in symbols then Some(symbols[key]) else None
    }

    /**
     * Files `child` under `context`. A key that is already taken is an error
     * and changes nothing; otherwise the child is found by `GetSymbol`
     * afterwards and is the last of its context's list.
     */
    method AddSymbol(child: Symbol, context: string) returns (r: Result<(), string>)
      modifies this
      ensures old(Valid()) ==> Valid()
      ensures old(GetSymbol(child.id, context)).Some? ==>
        r == Err(DuplicateKeyMessage(Key(child.id, context)))
        && symbols == old(symbols) && contextMap == old(contextMap)
      ensures old(GetSymbol(child.id, context)).None? ==>
        r == Ok(())
        && symbols == old(symbols)[Key(child.id, context) := child]
        && contextMap == old(contextMap)[context := old(GetSymbolsInContext(context)) + [child]]
      ensures r.Ok? ==> GetSymbol(child.id, context) == Some(child)
      ensures forall i, c | Key(i, c) != Key(child.id, context) :: GetSymbol(i, c) == old(GetSymbol(i, c))
    {
      var key := Key(child.id, context);
      if key in symbols {
        return Err(DuplicateKeyMessage(key));
      }
      var list := GetSymbolsInContext(context);
      if Valid() {
        forall i | 0 <= i < |list|
          ensures list[i].id != child.id
        {
          KeySameContext(list[i].id, child.id, context);
        }
      }
      symbols := symbols[key := child];
      contextMap := contextMap[context := list + [child]];
      r := Ok(());
    }
  }

  /** A table's symbols and their children: everything reading the table for a document can touch. */
  ghost function Reach(table: map<string, Symbol>): set<Symbol>
    reads table.Values
  {
    table.Values + set c, k | c in table.Values && k in c.symbols :: c.symbols[k]
  }

  /**
   * Symbol equality: the same object, or the same concrete class and id, and
   * for the classes that add attributes, equal attributes too (kind class for
   * arguments and capabilities, description for capabilities). Children are
   * never compared.
   */
  predicate SameKind(a: SymbolKind, b: SymbolKind)
  {
    match (a, b)
    case (CapabilityKind(d1, c1), CapabilityKind(d2, c2)) => c1 == c2 && d1 == d2
    case (ArgumentKind(k1), ArgumentKind(k2)) => k1 == k2
    case (TestKind, TestKind) => true
    case (EnvironmentKind(_), EnvironmentKind(_)) => true
    case _ => false
  }

  predicate Equals(a: Symbol, b: Symbol)
  {
    a == b || (a.id == b.id && SameKind(a.kind, b.kind))
  }

  /** Equality is an equivalence relation and always implies equal ids and classes. */
  lemma EqualsIsEquivalence(a: Symbol, b: Symbol, c: Symbol)
    ensures Equals(a, a)
    ensures Equals(a, b) ==> Equals(b, a)
    ensures Equals(a, b) && Equals(b, c) ==> Equals(a, c)
    ensures Equals(a, b) ==> a.id == b.id && a.kind.CapabilityKind? == b.kind.CapabilityKind?
    ensures Equals(a, b) && a.kind.CapabilityKind? ==> a.kind == b.kind
  {
  }
}
