// Facts about maps that change at one key.
module Maps {

  // Overwriting a key forgets its earlier value; removing a new key undoes adding it.
  lemma Replaced<K, V>(m: map<K, V>, k: K, v: V, w: V)
    ensures m[k := v][k := w] == m[k := w]
    ensures k !in m ==> m[k := v] - {k} == m
  {
  }
}
