/**
 * CommandSingleResultExpression<TFilter, TResult>: the step of the fluent
 * pipeline that has one result set. It combines the command's fingerprint
 * with the identity of its own type into a cache hash, stores result
 * mappings, and realizes a processor: from the process-wide processor cache
 * when one is registered under the key, otherwise from the processor
 * factory.
 */
module ResultSets {
  import opened Wrappers

  // ---------------------------------------------------------------------------
  // BigInteger exclusive or

  /** The exclusive or of two bits. */
  function BitXor(x: int, y: int): int {
    if x == y then 0 else 1
  }

  function Abs(x: int): nat {
    if x < 0 then -x else x
  }

  /** Halving (an arithmetic shift right by one) moves every integer but 0 and -1 closer to zero. */
  lemma HalfShrinks(x: int)
    ensures Abs(x / 2) <= Abs(x)
    ensures x != 0 && x != -1 ==> Abs(x / 2) < Abs(x)
  {
  }

  /**
   * BigInteger's ^ operator: the bitwise exclusive or of two integers in
   * infinite two's complement. 0 and -1 are the all-zeros and the all-ones
   * bit strings; anything else is twice its upper bits plus its lowest bit.
   */
  function Xor(a: int, b: int): int
    decreases Abs(a) + Abs(b)
  {
    if (a == 0 || a == -1) && (b == 0 || b == -1) then (if a == b then 0 else -1)
    else
      HalfShrinks(a);
      HalfShrinks(b);
      2 * Xor(a / 2, b / 2) + BitXor(a % 2, b % 2)
  }

  /** Every pair of integers, 0 and -1 included, splits into upper bits and lowest bit the same way. */
  lemma XorStep(a: int, b: int)
    ensures Xor(a, b) == 2 * Xor(a / 2, b / 2) + BitXor(a % 2, b % 2)
  {
  }

  /** The upper bits and the lowest bit of an exclusive or. */
  lemma XorHalves(a: int, b: int)
    ensures Xor(a, b) / 2 == Xor(a / 2, b / 2)
    ensures Xor(a, b) % 2 == BitXor(a % 2, b % 2)
  {
    XorStep(a, b);
  }

  lemma {:induction false} XorCommutes(a: int, b: int)
    ensures Xor(a, b) == Xor(b, a)
    decreases Abs(a) + Abs(b)
  {
    if !((a == 0 || a == -1) && (b == 0 || b == -1)) {
      HalfShrinks(a);
      HalfShrinks(b);
      XorCommutes(a / 2, b / 2);
    }
  }

  lemma {:induction false} XorZero(a: int)
    ensures Xor(a, 0) == a
    decreases Abs(a)
  {
    if a != 0 && a != -1 {
      HalfShrinks(a);
      XorZero(a / 2);
    }
  }

  /** Exclusive or with the same value twice gives back the original: b ^ x ^ x == b. */
  lemma {:induction false} XorCancels(a: int, b: int)
    ensures Xor(Xor(a, b), b) == a
    decreases Abs(a) + Abs(b)
  {
    XorStep(Xor(a, b), b);
    XorHalves(a, b);
    if !((a == 0 || a == -1) && (b == 0 || b == -1)) {
      HalfShrinks(a);
      HalfShrinks(b);
      XorCancels(a / 2, b / 2);
    } else {
      assert Xor(a, b) / 2 == Xor(a, b);
    }
  }

  /** Sample values of the operator: 5 ^ 3 == 6, and -6 ^ 3 == -7 in two's complement. */
  lemma XorExamples()
    ensures Xor(5, 3) == 6
    ensures Xor(-6, 3) == -7
  {
    assert Xor(1, 0) == 1;
    assert Xor(2, 1) == 3;
    assert Xor(-2, 0) == -2;
    assert Xor(-3, 1) == -4;
  }

  /** Exclusive or with a fixed value is one-to-one. */
  lemma XorInjective(x: int, y: int, c: int)
    requires Xor(x, c) == Xor(y, c)
    ensures x == y
  {
    XorCancels(x, c);
    XorCancels(y, c);
  }

  // ---------------------------------------------------------------------------
  // Hashes

  /**
   * The CacheHash property: (base.CacheHash * 31) ^ (GetTypeArgumentHashCode(GetType()) * 31)
   * ^ GetType().AssemblyQualifiedName.GetHashCode(), with ^ grouping to the left.
   */
  function CombinedCacheHash(baseHash: int, typeArgumentHash: int, assemblyNameHash: int): int {
    Xor(Xor(baseHash * 31, typeArgumentHash * 31), assemblyNameHash)
  }

  /** The key Realize looks a processor up under when no name is given. */
  function ProcessorKey(cacheHash: int, processorInterfaceHash: int): int {
    Xor(cacheHash * 31, processorInterfaceHash)
  }

  /** For one expression type, distinct command fingerprints give distinct cache hashes. */
  lemma CombinedCacheHashInjective(b1: int, b2: int, typeArgumentHash: int, assemblyNameHash: int)
    ensures CombinedCacheHash(b1, typeArgumentHash, assemblyNameHash) == CombinedCacheHash(b2, typeArgumentHash, assemblyNameHash)
            <==> b1 == b2
  {
    if CombinedCacheHash(b1, typeArgumentHash, assemblyNameHash) == CombinedCacheHash(b2, typeArgumentHash, assemblyNameHash) {
      XorInjective(Xor(b1 * 31, typeArgumentHash * 31), Xor(b2 * 31, typeArgumentHash * 31), assemblyNameHash);
      XorInjective(b1 * 31, b2 * 31, typeArgumentHash * 31);
    }
  }

  /** For one processor interface, distinct cache hashes give distinct processor keys. */
  lemma ProcessorKeyInjective(h1: int, h2: int, processorInterfaceHash: int)
    ensures ProcessorKey(h1, processorInterfaceHash) == ProcessorKey(h2, processorInterfaceHash) <==> h1 == h2
  {
    if ProcessorKey(h1, processorInterfaceHash) == ProcessorKey(h2, processorInterfaceHash) {
      XorInjective(h1 * 31, h2 * 31, processorInterfaceHash);
    }
  }

  /**
   * The type-identity parts of the cache hash can be swapped: the hash of a
   * command fingerprint and a type hash is symmetric in those two.
   */
  lemma CombinedCacheHashSymmetric(b: int, t: int, assemblyNameHash: int)
    ensures CombinedCacheHash(b, t, assemblyNameHash) == CombinedCacheHash(t, b, assemblyNameHash)
  {
    XorCommutes(b * 31, t * 31);
  }

  // ---------------------------------------------------------------------------
  // Processors, the processor cache and the factory

  /** The processor interface an object implements: its filter type and its result types, by name. */
  datatype ProcessorShape = ProcessorShape(filter: string, results: seq<string>)

  /** A compiled command processor: its identity and the interface it implements. */
  datatype Processor = Processor(id: nat, shape: ProcessorShape)

  datatype RealizeError =
    /** InvalidCastException: the cached processor does not implement the requested interface. */
    | InvalidCast(id: nat)

  /** CommandManager.Instance's processor registry: one table by hash and one by name. */
  class ProcessorCache {
    var byHash: map<int, Processor>
    var byName: map<string, Processor>

    constructor ()
      ensures byHash == map[] && byName == map[]
    {
      byHash, byName := map[], map[];
    }
  }

  /**
   * The single-result-set processor factory: what it builds for an
   * expression and a name is outside the core, so it is the function
   * `make`; `requests` records the expressions and names it was called with.
   */
  class ProcessorFactory {
    const make: (CommandSingleResultExpression, Option<string>) -> Processor
    var requests: seq<(CommandSingleResultExpression, Option<string>)>

    constructor (make: (CommandSingleResultExpression, Option<string>) -> Processor)
      ensures this.make == make && requests == []
    {
      this.make := make;
      requests := [];
    }

    /** BuildCommandProcessor<TFilter, TResult>(expression, name). */
    method BuildCommandProcessor(expression: CommandSingleResultExpression, name: Option<string>) returns (p: Processor)
      modifies this`requests
      ensures p == make(expression, name) && requests == old(requests) + [(expression, name)]
    {
      p := make(expression, name);
      requests := requests + [(expression, name)];
    }
  }

  /** The processor the cache holds for a lookup: by name when a name is given, by key otherwise. */
  function Cached(byHash: map<int, Processor>, byName: map<string, Processor>, name: Option<string>, key: int): Option<Processor> {
    match name
    case None => if key in byHash then Some(byHash[key]) else None
    case Some(n) => if n in byName then Some(byName[n]) else None
  }

  /** A lookup without a name never consults the name table. */
  lemma HashLookupIgnoresNames(byHash: map<int, Processor>, names1: map<string, Processor>, names2: map<string, Processor>, key: int)
    ensures Cached(byHash, names1, None, key) == Cached(byHash, names2, None, key)
    ensures Cached(byHash, names1, None, key).Some? <==> key in byHash
  {
  }

  /** A lookup by name never consults the hash table, nor the key. */
  lemma NameLookupIgnoresHashes(hashes1: map<int, Processor>, hashes2: map<int, Processor>, byName: map<string, Processor>,
                                name: string, key1: int, key2: int)
    ensures Cached(hashes1, byName, Some(name), key1) == Cached(hashes2, byName, Some(name), key2)
    ensures Cached(hashes1, byName, Some(name), key1).Some? <==> name in byName
  {
  }

  /** An Action<IResultMappingExpression<TFilter, TResult>>: foreign code, known only by identity. */
  datatype MappingSetup = MappingSetup(id: nat)

  class CommandSingleResultExpression {
    /** base.CacheHash: the fingerprint of the command and of the result implementor. */
    const baseHash: int
    /** GetTypeArgumentHashCode(GetType()). */
    const typeArgumentHash: int
    /** GetType().AssemblyQualifiedName.GetHashCode(), a 32-bit value. */
    const assemblyNameHash: int
    /** GetTypeArgumentHashCode(typeof(ISingleResultSetCommandProcessor<TFilter, TResult>)). */
    const processorInterfaceHash: int
    /** ISingleResultSetCommandProcessor<TFilter, TResult>. */
    const shape: ProcessorShape
    const factory: ProcessorFactory

    /** What MappingStorage.StoreMapping has been given, in call order. */
    var storedMappings: seq<MappingSetup>

    constructor (baseHash: int, typeArgumentHash: int, assemblyNameHash: int, processorInterfaceHash: int,
                 shape: ProcessorShape, factory: ProcessorFactory)
      ensures this.baseHash == baseHash && this.typeArgumentHash == typeArgumentHash
      ensures this.assemblyNameHash == assemblyNameHash && this.processorInterfaceHash == processorInterfaceHash
      ensures this.shape == shape && this.factory == factory && storedMappings == []
    {
      this.baseHash := baseHash;
      this.typeArgumentHash := typeArgumentHash;
      this.assemblyNameHash := assemblyNameHash;
      this.processorInterfaceHash := processorInterfaceHash;
      this.shape := shape;
      this.factory := factory;
      storedMappings := [];
    }

    function CacheHash(): int {
      CombinedCacheHash(baseHash, typeArgumentHash, assemblyNameHash)
    }

    /** ForResults: stores the mapping and returns this same expression. */
    method ForResults(mappings: MappingSetup) returns (self: CommandSingleResultExpression)
      modifies this`storedMappings
      ensures self == this && storedMappings == old(storedMappings) + [mappings]
    {
      storedMappings := storedMappings + [mappings];
      return this;
    }

    /**
     * Realize: looks the processor up by name when one is given, otherwise by
     * the processor key; a cached processor is cast to this expression's
     * processor interface, and on a miss the factory builds one for this
     * expression and the same name.
     */
    method Realize(name: Option<string>, cache: ProcessorCache) returns (r: Result<Processor, RealizeError>)
      modifies factory`requests
      ensures var cached := Cached(cache.byHash, cache.byName, name, ProcessorKey(CacheHash(), processorInterfaceHash));
              && (cached.Some? ==> factory.requests == old(factory.requests))
              && (cached.Some? && cached.value.shape == shape ==> r == Success(cached.value))
              && (cached.Some? && cached.value.shape != shape ==> r == Failure(InvalidCast(cached.value.id)))
              && (cached.None? ==> r == Success(factory.make(this, name)) && factory.requests == old(factory.requests) + [(this, name)])
    {
      // CommandManager.Instance.TryGetCommandProcessor, by hash or by name.
      var instance: Option<Processor>;
      if name.None? {
        var hash := ProcessorKey(CacheHash(), processorInterfaceHash);
        instance := if hash in cache.byHash then Some(cache.byHash[hash]) else None;
      } else {
        instance := if name.value in cache.byName then Some(cache.byName[name.value]) else None;
      }
      if instance.Some? {
        if instance.value.shape != shape {
          return Failure(InvalidCast(instance.value.id));
        }
        return Success(instance.value);
      }
      var built := factory.BuildCommandProcessor(this, name);
      return Success(built);
    }
  }
}
