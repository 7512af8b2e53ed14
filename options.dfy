/** Optional values: what `os.getenv` and a Key Vault secret's `value` give back. */
module Options {

  /** `None` is Python's `None`; `Some(v)` is a present value. */
  datatype Option<+T> = None | Some(value: T)
}
