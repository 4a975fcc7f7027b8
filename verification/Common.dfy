/** Result and option types, and partial maps, shared by every module. */
module Common {

  datatype Option<+T> = None | Some(value: T)

  datatype Result<+T, +E> = Ok(value: T) | Err(error: E)

  function Get<K, V>(m: map<K, V>, k: K): Option<V> {
    if k in m then Some(m[k]) else None
  }

  function Set<K, V>(m: map<K, V>, k: K, v: Option<V>): map<K, V> {
    match v
    case Some(value) => m[k := value]
    case None => m - {k}
  }

  // The maps agree everywhere but on `keys`.
  ghost predicate SameBut<K(!new), V>(a: map<K, V>, b: map<K, V>, keys: set<K>) {
    forall k: K :: k !in keys ==> Get(a, k) == Get(b, k)
  }

  // How many events still to come are not `proceed`.
  function Faults<F(==)>(world: seq<F>, proceed: F): (r: nat)
    ensures world == [] ==> r == 0
  {
    if world == [] then 0 else Faults(world[1..], proceed) + if world[0] == proceed then 0 else 1
  }
}
