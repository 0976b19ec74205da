/** Small shared vocabulary. */
module Common {
  datatype Option<+T> = None | Some(value: T)

  type Guild = nat
  type User = nat
  type Profile = nat
  type IntentId = nat
  type Revision = nat

  /** Discord never reuses a channel id and a channel never changes guild, so
      the guild is part of the identity. Lobbies and rooms are both channels. */
  datatype Channel = Channel(guild: Guild, id: nat)

  function Max(a: real, b: real): real {
    if a >= b then a else b
  }

  function Min(a: real, b: real): real {
    if a <= b then a else b
  }
}
