/** The size of a chunk, in code points, where none is configured. */
module ChunkSizes {

  const DEFAULT_SIZE: nat := 1000

  function EffectiveSize(size: int): (n: nat)
    ensures n > 0 && (size > 0 ==> n == size) && (size <= 0 ==> n == 1000)
  {
    if size <= 0 then DEFAULT_SIZE else size
  }
}
