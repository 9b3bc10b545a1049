// The create-lobby form: its initial values and the payload it hands to the
// session when submitted, with a blank password turned into `null`.
module CreateLobbyForm {
  import opened Wrappers
  import Text
  import Protocol

  /** The form's four inputs. `maxImages` is whatever number the input holds. */
  datatype LobbyForm = LobbyForm(maxImages: int, lobbyName: string, password: string, isPrivate: bool)

  /** The values of the `useState` hooks when the form first renders. */
  const InitialForm := LobbyForm(25, "", "", false)

  /** `password.trim() || null`: the empty string is falsy, so a password of
      only whitespace is sent as `null`; any other is sent trimmed. */
  function NormalizePassword(password: string): (r: Option<string>)
    ensures r.None? <==> Text.IsBlank(password)
    ensures r.Some? ==> r.value == Text.Trim(password) && r.value != []
    ensures r.Some? ==> !Text.IsJsWhitespace(r.value[0]) && !Text.IsJsWhitespace(r.value[|r.value| - 1])
  {
    var t := Text.Trim(password);
    if t == [] then None else Some(t)
  }

  /** `handleSubmit`: the payload passed to `onCreateLobby`. */
  function Submit(form: LobbyForm): (r: Protocol.LobbyRequest)
    ensures r.maxImages == form.maxImages && r.lobbyName == form.lobbyName && r.isPrivate == form.isPrivate
    ensures r.password == NormalizePassword(form.password)
  {
    Protocol.LobbyRequest(form.maxImages, form.lobbyName, NormalizePassword(form.password), form.isPrivate)
  }

  /** Submitting the untouched form creates a public lobby with no password
      and room for 25 characters. */
  lemma InitialSubmit()
    ensures Submit(InitialForm) == Protocol.LobbyRequest(25, "", None, false)
  {
  }

  /** Normalising is idempotent: typing back the password that was sent and
      submitting again sends the same payload. */
  lemma SubmitStable(form: LobbyForm)
    ensures var r := Submit(form);
      Submit(form.(password := r.password.GetOr(""))) == r
  {
    var t := Text.Trim(form.password);
    if t != [] {
      Text.TrimIdempotent(form.password);
      assert NormalizePassword(t) == Some(t);
    }
  }

  /** Two passwords that differ only in surrounding whitespace send the same payload. */
  lemma SurroundingWhitespaceIgnored(form: LobbyForm, pre: string, post: string)
    requires Text.IsBlank(pre) && Text.IsBlank(post)
    ensures Submit(form.(password := pre + form.password + post)) == Submit(form)
  {
    Text.TrimPadded(pre, form.password, post);
  }
}
