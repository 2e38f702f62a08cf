/**
 * Transcript aggregation: the committed list of utterances and the commit that
 * a turn-complete signal performs on the two pending per-speaker buffers
 * (App.tsx:188-211, item shape from types.ts:16-21).
 */
module Transcript {
  import opened Text

  datatype Speaker = User | Model

  /** `Date.now().toString() + '-user'` (or `'-model'`): a clock reading and the speaker tag. */
  datatype ItemId = ItemId(millis: int, suffix: Speaker)

  /** A committed utterance; `timestamp` is the opaque `new Date()` reading. */
  datatype TranscriptItem = TranscriptItem(id: ItemId, speaker: Speaker, text: string, timestamp: int)

  /** What every committed item looks like: non-empty text that neither starts nor ends with whitespace. */
  predicate Committed(item: TranscriptItem) {
    item.text != [] && !IsWhitespace(item.text[0]) && !IsWhitespace(item.text[|item.text| - 1])
  }

  /** The items a turn-complete produces and the two buffers it leaves behind. */
  datatype Commit = Commit(items: seq<TranscriptItem>, user: string, model: string)

  function ItemFor(speaker: Speaker, buffer: string, millis: int): TranscriptItem {
    TranscriptItem(ItemId(millis, speaker), speaker, Trim(buffer), millis)
  }

  /**
   * Turn-complete on pending buffers `user` and `model`: exactly the buffers
   * that produce an item are cleared, so a whitespace-only buffer is kept as it
   * was, and neither buffer holds anything but whitespace afterwards.
   */
  function CommitTurn(user: string, model: string, millis: int): (c: Commit)
    ensures c.user == (if AllWhitespace(user) then user else [])
    ensures c.model == (if AllWhitespace(model) then model else [])
    ensures AllWhitespace(c.user) && AllWhitespace(c.model)
  {
    var u, m := Trim(user), Trim(model);
    var fromUser := if u != [] then [ItemFor(User, user, millis)] else [];
    var fromModel := if m != [] then [ItemFor(Model, model, millis)] else [];
    Commit(fromUser + fromModel, if u != [] then [] else user, if m != [] then [] else model)
  }

  /**
   * The items of a commit: one per buffer holding more than whitespace, so
   * none at all when both are blank; the user's before the model's; each
   * tagged with its speaker and carrying its buffer trimmed, hence non-empty
   * and free of surrounding whitespace.
   */
  lemma CommitTurnItems(user: string, model: string, millis: int)
    ensures var items := CommitTurn(user, model, millis).items;
      && |items| == (if AllWhitespace(user) then 0 else 1) + (if AllWhitespace(model) then 0 else 1)
      && (items == [] <==> AllWhitespace(user) && AllWhitespace(model))
      && (forall i :: 0 <= i < |items| ==> Committed(items[i]) && items[i].id.suffix == items[i].speaker)
      && (!AllWhitespace(user) ==> items[0] == ItemFor(User, user, millis))
      && (!AllWhitespace(model) ==> items[|items| - 1] == ItemFor(Model, model, millis))
  {
  }

  /** Committed text is its own trim: committing it again would store the same text. */
  lemma CommittedTextIsTrimmed(item: TranscriptItem)
    requires Committed(item)
    ensures Trim(item.text) == item.text
  {
  }

  /**
   * Whitespace-only buffers kept by one commit do not leak into the next one:
   * whatever text is appended to them commits exactly as if the buffers had
   * been empty, for the user's buffer and the model's alike.
   */
  lemma KeptWhitespaceIsHarmless(w: string, v: string, userText: string, modelText: string, millis: int)
    requires AllWhitespace(w) && AllWhitespace(v)
    ensures CommitTurn(w + userText, v + modelText, millis).items == CommitTurn(userText, modelText, millis).items
  {
    TrimIgnoresLeadingWhitespace(w, userText);
    TrimIgnoresLeadingWhitespace(v, modelText);
  }
}
