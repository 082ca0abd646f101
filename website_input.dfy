/** The URL step (components/WebsiteInput.tsx): the URL field and the validity
    gate in front of the scrape callback. URL parsing is the parameter
    `isValidUrl`, standing for whether `new URL(url)` succeeds. */
module WebsiteInput {
  import opened Wrappers

  const InvalidUrlMessage := "Please enter a valid URL (e.g., https://example.com)"

  /** The new validation message and the callback invocation of one submit. */
  datatype GateResult = GateResult(validationError: string, submitted: Option<string>)

  /** A valid URL clears the message and is handed on unchanged; an invalid one
      sets the message and is not handed on. */
  function Gate(url: string, isValidUrl: string -> bool): (g: GateResult)
    ensures g.submitted.Some? <==> isValidUrl(url)
    ensures g.submitted.Some? ==> g.submitted.value == url && g.validationError == ""
    ensures g.submitted.None? ==> g.validationError == InvalidUrlMessage
  {
    if isValidUrl(url) then GateResult("", Some(url)) else GateResult(InvalidUrlMessage, None)
  }

  class UrlForm {
    var url: string
    var validationError: string

    constructor()
      ensures url == "" && validationError == ""
    {
      url, validationError := "", "";
    }

    /** The field's change handler. */
    method SetUrl(value: string)
      modifies this
      ensures url == value && validationError == old(validationError)
    {
      url := value;
    }

    /** One submit: the URL is never modified, and the message is overwritten
        (not accumulated), so it depends only on the URL. */
    method HandleSubmit(isValidUrl: string -> bool) returns (submitted: Option<string>)
      modifies this
      ensures url == old(url)
      ensures GateResult(validationError, submitted) == Gate(url, isValidUrl)
    {
      if isValidUrl(url) {
        validationError := "";
        submitted := Some(url);
      } else {
        validationError := InvalidUrlMessage;
        submitted := None;
      }
    }

    /** Submitting twice leaves the same state as submitting once. */
    method HandleSubmitTwice(isValidUrl: string -> bool) returns (first: Option<string>, second: Option<string>)
      modifies this
      ensures url == old(url) && first == second
      ensures GateResult(validationError, second) == Gate(url, isValidUrl)
    {
      first := HandleSubmit(isValidUrl);
      ghost var afterFirst := validationError;
      second := HandleSubmit(isValidUrl);
      assert validationError == afterFirst;
    }
  }
}
