/** Vocabulary shared by every component: optional values, results, untrusted fields and safe integers. */
module Core {

  datatype Option<+T> = None | Some(value: T)

  datatype Result<+T> = Ok(value: T) | Err(error: string)

  /** Node, task, message and run identities. A well-formed UUID is an abstract token. */
  type Uuid = nat

  /**
   * One field of an untrusted JSON body: absent, null, of the type its reader expects, or anything else.
   * `??` treats Undefined and Null alike; `=== undefined` and the type tests do not.
   */
  datatype Field<+T> = Undefined | Null | Val(v: T) | Bad

  /** Number.MAX_SAFE_INTEGER */
  const MAX_SAFE: int := 9007199254740991

  predicate Safe(n: int) {
    -MAX_SAFE <= n <= MAX_SAFE
  }

  predicate Positive(n: int) {
    0 < n <= MAX_SAFE
  }

  predicate Nonnegative(n: int) {
    0 <= n <= MAX_SAFE
  }

  predicate PositiveField(f: Field<int>) {
    f.Val? && Positive(f.v)
  }

  function OrDefault(f: Field<int>, default: int): Field<int> {
    if f.Undefined? || f.Null? then Val(default) else f
  }

  function Min(a: int, b: int): int {
    if a <= b then a else b
  }

  function Max(a: int, b: int): int {
    if a <= b then b else a
  }
}
