/** Assembly of the message list handed to the chat-completion endpoint. */
module Prompts {
  import opened Wrappers
  import opened Context

  /** The assistant's persona, a triple-quoted string that begins and ends with a newline. */
  const SystemPrompt: string :=
    "\nYou are a friendly and helpful AI assistant for a flower shop.\n"
    + "Your goal is to assist customers with their orders, provide information about flowers, and handle common inquiries.\n"
    + "Be polite, concise, and always stay in character.\n"
    + "You should not answer questions that are not related to flowers, the shop, or customer orders.\n"

  const SystemMessage: Message := Message("system", SystemPrompt)

  /**
   * A fresh list: the system message, then the history in order, then the
   * current text as a `'user'` message. The caller's history is a value and
   * is left as it was.
   */
  function BuildPrompt(history: seq<Message>, userText: string): (r: seq<Message>)
    ensures |r| == |history| + 2
    ensures r[0] == SystemMessage
    ensures r[1..|r| - 1] == history
    ensures r[|r| - 1] == Message("user", userText)
  {
    [SystemMessage] + history + [Message("user", userText)]
  }

  /**
   * Reads a prompt back into the history and the current text it was built
   * from; a list that `build_prompt` cannot have produced gives None.
   */
  function SplitPrompt(p: seq<Message>): (r: Option<(seq<Message>, string)>)
    ensures r.Some? ==> BuildPrompt(r.value.0, r.value.1) == p
  {
    if |p| >= 2 && p[0] == SystemMessage && p[|p| - 1].role == "user"
    then Some((p[1..|p| - 1], p[|p| - 1].content))
    else None
  }

  /** Building a prompt loses nothing: its history and its current text can be read back. */
  lemma SplitBuildPrompt(history: seq<Message>, userText: string)
    ensures SplitPrompt(BuildPrompt(history, userText)) == Some((history, userText))
  {
  }

  /** Two prompts are equal exactly when they were built from the same history and text. */
  lemma BuildPromptInjective(h1: seq<Message>, t1: string, h2: seq<Message>, t2: string)
    ensures BuildPrompt(h1, t1) == BuildPrompt(h2, t2) <==> h1 == h2 && t1 == t2
  {
    if BuildPrompt(h1, t1) == BuildPrompt(h2, t2) {
      SplitBuildPrompt(h1, t1);
      SplitBuildPrompt(h2, t2);
    }
  }
}
