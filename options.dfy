/** The optional value used for C# `null` and for SteamKit's `KeyValue.Invalid`. */
module Options {

  datatype Option<+T> = None | Some(value: T)
}
