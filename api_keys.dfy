/** The per-provider key store: one key per provider, all empty at first,
    replaced one provider at a time or cleared all at once. */
module ApiKeys {
  import opened JsRuntime
  import opened Types

  /** Every provider mapped to the empty key. */
  const EmptyKeys: map<Provider, string> :=
    map[Anthropic := "", OpenAI := "", Kimi := "", Ollama := ""]

  /** `EmptyKeys` names every provider and holds no key. */
  lemma EmptyKeysComplete(p: Provider)
    ensures p in EmptyKeys && EmptyKeys[p] == ""
  {
    match p
    case Anthropic =>
    case OpenAI =>
    case Kimi =>
    case Ollama =>
  }

  /** The provider's state in `ApiKeyProvider`. */
  class KeyStore {
    var keys: map<Provider, string>

    /** Every provider has an entry. */
    ghost predicate Valid()
      reads this
    {
      forall p: Provider :: p in keys
    }

    constructor()
      ensures Valid()
      ensures keys == EmptyKeys
    {
      keys := EmptyKeys;
      new;
      forall p: Provider ensures p in keys {
        EmptyKeysComplete(p);
      }
    }

    /** `getKey`: the stored key, or "" when there is none. */
    function GetKey(p: Provider): (r: string)
      reads this
      ensures p in keys ==> r == keys[p]
      ensures p !in keys ==> r == ""
    {
      Or(if p in keys then Some(keys[p]) else None, "")
    }

    /** `hasKey`: whether the stored key is non-empty. */
    predicate HasKey(p: Provider)
      reads this
      ensures HasKey(p) <==> GetKey(p) != ""
    {
      p in keys && keys[p] != ""
    }

    /** `setKey`: provider `p` gets key `k`; every other entry stays. */
    method SetKey(p: Provider, k: string)
      modifies this
      requires Valid()
      ensures Valid()
      ensures keys == old(keys)[p := k]
      ensures GetKey(p) == k
      ensures HasKey(p) <==> k != ""
      ensures forall q: Provider :: q != p ==> GetKey(q) == old(GetKey(q))
    {
      keys := keys[p := k];
    }

    /** `clearKeys`: back to every key empty. */
    method ClearKeys()
      modifies this
      requires Valid()
      ensures Valid()
      ensures keys == EmptyKeys
      ensures forall q: Provider :: GetKey(q) == "" && !HasKey(q)
    {
      keys := EmptyKeys;
      forall q: Provider ensures q in keys && keys[q] == "" {
        EmptyKeysComplete(q);
      }
    }
  }
}
