/** The supply of raw tokens and their hashes. */
module Names {
  import opened IdentitySpec

  /** Names never repeat and hashes never collide. */
  ghost predicate Sound(w: World) {
    && (forall i: nat, j: nat :: w.newName(i) == w.newName(j) ==> i == j)
    && (forall x, y :: w.hash(x) == w.hash(y) ==> x == y)
  }

  ghost predicate Named(w: World, n: nat, name: string) {
    exists i: nat :: i < n && name == w.newName(i)
  }

  ghost predicate Minted(w: World, n: nat, h: string) {
    exists i: nat :: i < n && h == w.hash(w.newName(i))
  }

  lemma NewIsNew(w: World, n: nat, m: nat)
    requires Sound(w) && n <= m
    ensures !Named(w, n, w.newName(m)) && Named(w, m + 1, w.newName(m))
    ensures !Minted(w, n, w.hash(w.newName(m))) && Minted(w, m + 1, w.hash(w.newName(m)))
  {
  }

  lemma MintedGrows(w: World, n: nat, m: nat, h: string)
    requires n <= m
    ensures Minted(w, n, h) ==> Minted(w, m, h)
    ensures Named(w, n, h) ==> Named(w, m, h)
  {
  }
}
