/** The row shapes of `src/lib/api.ts` as the client components receive them. */
module Api {
  import opened Wrappers

  /** A `chat_sessions` row. The column `title` may be null, which the
      components guard against with `session.title?.` and `title || …`. */
  datatype ChatSession = ChatSession(id: string, title: Option<string>, turnCount: int, isPaused: bool, createdAt: string)

  /** A `chat_messages` row; `modelType` is `A`, `B`, `user` or `system`. */
  datatype ChatMessage = ChatMessage(id: string, sessionId: string, modelType: string, content: string, createdAt: string)
}
