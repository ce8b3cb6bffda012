/** Small value types shared by the components. */
module Common {

  datatype Option<+T> = None | Some(value: T) {
    function GetOr(default: T): T {
      match this
      case Some(v) => v
      case None => default
    }
  }

  datatype Result<+T, +E> = Ok(value: T) | Err(error: E)

  /** The value of a key that may be missing, as the source's `dict.get`. */
  function Get<K, V>(m: map<K, V>, k: K): Option<V> {
    if k in m then Some(m[k]) else None
  }

  // `str.lower` on ASCII.

  function LowerChar(c: char): char {
    if 'A' <= c <= 'Z' then c + 32 as char else c
  }

  function Lower(s: string): string {
    seq(|s|, i requires 0 <= i < |s| => LowerChar(s[i]))
  }

  /** The text is the word in lower, upper or mixed case. */
  predicate Spells(text: string, word: string) {
    |text| == |word| && forall i :: 0 <= i < |text| ==>
      text[i] == word[i] || ('a' <= word[i] <= 'z' && text[i] as int + 32 == word[i] as int)
  }

  /** The elements of a list, as the source's `set(list)`. */
  function Elements<T>(xs: seq<T>): set<T> {
    set x | x in xs
  }

  /** `len(set(xs)) == len(xs)`: no element occurs twice. */
  predicate Distinct<T(==)>(xs: seq<T>) {
    forall i, j :: 0 <= i < j < |xs| ==> xs[i] != xs[j]
  }

  /** Everything that some key of an index holds. */
  function Union<K, V>(index: map<K, set<V>>): set<V> {
    set k, v | k in index && v in index[k] :: v
  }

  /** The same, with the key it is held under. */
  function Graph<K, V>(index: map<K, set<V>>): set<(K, V)> {
    set k, v | k in index && v in index[k] :: (k, v)
  }

  lemma UnionExtend<K, V>(index: map<K, set<V>>, key: K, values: set<V>)
    requires key !in index
    ensures Union(index[key := values]) == Union(index) + values
    ensures Graph(index[key := values]) == Graph(index) + (set v | v in values :: (key, v))
  {
    var next := index[key := values];
    forall v | v in Union(index) + values
      ensures v in Union(next)
    {
      if v in values {
        assert next[key] == values;
      } else {
        var k :| k in index && v in index[k];
        assert next[k] == index[k];
      }
    }
  }
}
