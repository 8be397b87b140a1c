/** The record shapes of src/models.rs, and the integer width the code uses for ids. */
module Models {
  import opened Wrappers

  const MinI32: int := -0x8000_0000
  const MaxI32: int := 0x7FFF_FFFF

  /** Rust's `i32`: ids arrive from requests and paths as 32-bit signed integers. */
  type I32 = x: int | MinI32 <= x <= MaxI32

  /** A row of the `users` table as returned by `SELECT id, name, prompt`. */
  datatype User = User(id: int, name: string, prompt: Option<string>)

  /** A row of the `conversations` table. */
  datatype Conversation = Conversation(userId: int, conversationSummary: Option<string>)
}
