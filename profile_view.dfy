/**
 * The profile-builder agent endpoint: it reads and strips the message,
 * stores it, builds the prompt from the user's stored conversation, stores
 * the agent's reply, and reports the profile's update time when the reply
 * says the profile was updated.
 */
module ProfileView {
  import opened Wrappers
  import opened Text
  import opened Json
  import opened Prompts

  /** `data.get("message", "").strip()`: a missing field reads as blank, text is stripped, anything else cannot be stripped. */
  datatype Latest = Blank | NotText | Message(text: string)

  function ReadMessage(field: Option<Json>): (r: Latest)
    ensures r.Message? ==> field.Some? && field.value.JStr? && r.text == Trim(Py, field.value.s) && r.text != ""
  {
    if field.None? then Blank
    else if !field.value.JStr? then NotText
    else if Trim(Py, field.value.s) == "" then Blank
    else Message(Trim(Py, field.value.s))
  }

  /**
   * A message is refused as missing exactly when the field is absent or
   * white space only; `null`, numbers and other non-text values make the
   * strip fail; an accepted message is already stripped.
   */
  lemma ReadMessageSpec(field: Option<Json>)
    ensures ReadMessage(field).Blank? <==> field.None? || (field.value.JStr? && AllSpace(Py, field.value.s))
    ensures ReadMessage(field).NotText? <==> field.Some? && !field.value.JStr?
    ensures ReadMessage(field).Message? ==> Trim(Py, ReadMessage(field).text) == ReadMessage(field).text
  {
    if field.Some? && field.value.JStr? {
      TrimEmpty(Py, field.value.s);
      TrimIdempotent(Py, field.value.s);
    }
  }

  /** The answer: 400 for a missing message, 500 when it is not text, otherwise the reply body. */
  datatype Response =
    | BadRequest
    | ServerError
    | Replied(reply: string, profileUpdatedAt: Option<string>)

  /**
   * The answer once the reply is stored: the body carries the profile's
   * update time exactly when the reply mentions `profile_updated`, and
   * reading that time fails with a 500 when the user has no profile
   * (`updatedAt == None`).
   */
  function Body(reply: string, updatedAt: Option<string>): (r: Response)
    ensures r == ServerError <==> Contains(reply, "profile_updated") && updatedAt.None?
    ensures r != ServerError ==> r.Replied? && r.reply == reply
    ensures r.Replied? ==> (r.profileUpdatedAt.Some? <==> Contains(reply, "profile_updated"))
    ensures r.Replied? && r.profileUpdatedAt.Some? ==> Some(r.profileUpdatedAt.value) == updatedAt
  {
    if !Contains(reply, "profile_updated") then Replied(reply, None)
    else if updatedAt.None? then ServerError
    else Replied(reply, Some(updatedAt.value))
  }

  /** The endpoint's state: the stored conversation messages of all users, in creation order. */
  class ProfileBuilderEndpoint {
    var store: seq<Stored>

    constructor ()
      ensures store == []
    {
      store := [];
    }

    /**
     * A refused request stores nothing. Otherwise the user's message is
     * stored first, so the prompt built from the stored conversation already
     * ends with it. The agent run is an input that may raise (`None`): the
     * request then fails with a 500 and the user's message stays stored
     * without a reply. Otherwise the reply is stored next, and the body
     * carries the profile's update time only when the reply mentions
     * `profile_updated`; reading that time raises (`updatedAt == None`, the
     * user has no profile) after the reply is stored.
     */
    method Post(owner: nat, field: Option<Json>, agent: string -> Option<string>, updatedAt: Option<string>) returns (resp: Response)
      modifies this
      ensures ReadMessage(field).Blank? ==> resp == BadRequest && store == old(store)
      ensures ReadMessage(field).NotText? ==> resp == ServerError && store == old(store)
      ensures ReadMessage(field).Message? ==>
        var latest := ReadMessage(field).text;
        var prompt := Prompt(HistoryOf(old(store) + [Stored(owner, AgentMessage("user", latest))], owner), latest);
        if agent(prompt).None? then
          resp == ServerError && store == old(store) + [Stored(owner, AgentMessage("user", latest))]
        else
          var reply := agent(prompt).value;
          && store == old(store) + [Stored(owner, AgentMessage("user", latest)), Stored(owner, AgentMessage("assistant", reply))]
          && resp == Body(reply, updatedAt)
    {
      var latest := ReadMessage(field);
      if latest.Blank? {
        return BadRequest;
      }
      if latest.NotText? {
        return ServerError;
      }
      store := store + [Stored(owner, AgentMessage("user", latest.text))];
      var prompt := BuildPrompt(HistoryOf(store, owner), latest.text);
      var result := agent(prompt);
      if result.None? {
        return ServerError;
      }
      var reply := result.value;
      store := store + [Stored(owner, AgentMessage("assistant", reply))];
      resp := Body(reply, updatedAt);
    }
  }
}
