/** Values shared by every part of the alert relay model. */
module Common {

  /** Python's `X | None`. */
  datatype Option<+T> = None | Some(value: T)

  /** A UTC instant, in microseconds since the epoch (the resolution of Python's datetime). */
  type Instant = int

  const MicrosPerSecond: nat := 1_000_000
  const MicrosPerMinute: nat := 60 * MicrosPerSecond
  const MicrosPerHour: nat := 60 * MicrosPerMinute
  const MicrosPerDay: nat := 24 * MicrosPerHour

  /** Look a key up in a table, as `dict.get` or a `SELECT ... WHERE key = ?` does. */
  function Get<K, V>(m: map<K, V>, k: K): (r: Option<V>)
    ensures r.Some? <==> k in m
    ensures r.Some? ==> r.value == m[k]
  {
    if k in m then Some(m[k]) else None
  }
}
