/** A transcript entry, `{ role: 'user' | 'model'; text: string }` in the source. */
module Messages {

  datatype Role = User | Model

  datatype Message = Message(role: Role, text: string)
}
