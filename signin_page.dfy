/** The sign-in page: a presence-checked form whose success stores the session. */
module SigninPage {
  import opened Wrappers
  import opened Types
  import opened Session

  const FillAllMessage := "Please fill in all fields"
  const SigninFailedMessage := "Failed to sign in"

  datatype Field = Email | Password

  class Page {
    var email: string
    var password: string
    var loading: bool
    var error: Option<string>
    const storage: LocalStorage
    /** A full-page navigation (`window.location.href = ...`), if one happened. */
    var location: Option<string>
    /** Every sign-in request sent: email and password. */
    var requests: seq<(string, string)>

    constructor (storage: LocalStorage)
      ensures email == "" && password == "" && !loading && error == None
      ensures this.storage == storage && location == None && requests == []
    {
      email, password, loading, error := "", "", false, None;
      this.storage := storage;
      location, requests := None, [];
    }

    /** `handleChange`: only the named field changes. */
    method HandleChange(field: Field, value: string)
      modifies this`email, this`password
      ensures field == Email ==> email == value && password == old(password)
      ensures field == Password ==> password == value && email == old(email)
    {
      match field {
        case Email => email := value;
        case Password => password := value;
      }
    }

    /**
     * `handleSubmit`, with the outcome of `signin` as `result`. An empty field
     * stops before any request; success writes 'token' and then 'user' and
     * navigates the whole page to '/'; failure leaves storage as it was.
     */
    method HandleSubmit(result: ApiResult<AuthResponse>)
      modifies this, storage
      ensures email == old(email) && password == old(password)
      ensures email == "" || password == "" ==>
                error == Some(FillAllMessage) && requests == old(requests) && loading == old(loading)
                && location == old(location) && storage.items == old(storage.items)
      ensures email != "" && password != "" ==> requests == old(requests) + [(email, password)] && !loading
      ensures email != "" && password != "" && result.Ok? ==>
                && error == None && location == Some("/")
                && storage.items == old(storage.items)[TokenKey := result.value.token][UserKey := SerializeUser(result.value.user)]
                && storage.Token() == Some(result.value.token)
      ensures email != "" && password != "" && result.Failed? ==>
                && error == Some(MessageOr(result.thrown, SigninFailedMessage))
                && location == old(location) && storage.items == old(storage.items)
    {
      error := None;
      if email == "" || password == "" {
        error := Some(FillAllMessage);
        return;
      }
      loading := true;
      requests := requests + [(email, password)];
      match result {
        case Ok(auth) =>
          storage.SetItem(TokenKey, auth.token);
          storage.SetItem(UserKey, SerializeUser(auth.user));
          location := Some("/");
        case Failed(thrown) =>
          error := Some(MessageOr(thrown, SigninFailedMessage));
      }
      loading := false;
    }
  }
}
