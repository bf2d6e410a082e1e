/** Option, and the settled outcome of a promise returned by a browser or library call. */
module Results {

  datatype Option<+T> = None | Some(value: T)

  /** How an awaited call settled: it resolved with a value, or it threw with a message. */
  datatype Call<+T> = Resolves(value: T) | Rejects(reason: string)
}
