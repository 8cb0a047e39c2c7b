/**
 * The error translator of contentful/errors.go: an error returned by the API
 * client becomes an ordered list of Terraform diagnostics.
 */
module Errors {
  import opened Wrappers

  /**
   * One field-level problem reported inside an API error response. `path` is
   * None when the response carries no path; its segments are taken as already
   * rendered to text.
   */
  datatype ErrorDetail = ErrorDetail(path: Option<seq<string>>, details: string)

  /**
   * The errors the client can return, as a closed set: a structured API error
   * response, the client's not-found error, and every other error (transport,
   * version conflicts, SDK errors), which only carries its rendered message.
   */
  datatype ClientError =
    | ErrorResponse(message: string, details: seq<ErrorDetail>)
    | NotFoundError(message: string)
    | OtherError(message: string)

  datatype Severity = Warning | Error

  datatype Diagnostic = Diagnostic(severity: Severity, summary: string)

  /** strings.Join */
  function Join(parts: seq<string>, sep: string): string
  {
    if |parts| == 0 then ""
    else if |parts| == 1 then parts[0]
    else parts[0] + sep + Join(parts[1..], sep)
  }

  function Segments(path: Option<seq<string>>): seq<string>
  {
    if path.Some? then path.value else []
  }

  /** The warning for one detail: `"<detail> (<path joined by .>)"`. */
  function WarningFor(e: ErrorDetail): Diagnostic
  {
    Diagnostic(Warning, e.details + " (" + Join(Segments(e.path), ".") + ")")
  }

  /** The warnings for a list of details, built in the order of the list. */
  function WarningsFor(ds: seq<ErrorDetail>): seq<Diagnostic>
  {
    if ds == [] then [] else WarningsFor(ds[..|ds| - 1]) + [WarningFor(ds[|ds| - 1])]
  }

  /** What parseError returns, for a nil error (None) or a client error. */
  function Translate(err: Option<ClientError>): seq<Diagnostic>
  {
    match err
    case None => []
    case Some(ErrorResponse(message, details)) => WarningsFor(details) + [Diagnostic(Error, message)]
    case Some(e) => [Diagnostic(Error, e.message)]
  }

  /** parseError (contentful/errors.go:11-34), with its two accumulating loops. */
  method ParseError(err: Option<ClientError>) returns (diags: seq<Diagnostic>)
    ensures diags == Translate(err)
  {
    if !(err.Some? && err.value.ErrorResponse?) {
      // diag.FromErr: nothing for nil, one Error carrying the message otherwise
      if err.None? {
        return [];
      }
      return [Diagnostic(Error, err.value.message)];
    }
    var details := err.value.details;
    var warnings: seq<Diagnostic> := [];
    var i := 0;
    while i < |details|
      invariant 0 <= i <= |details|
      invariant warnings == WarningsFor(details[..i])
    {
      var e := details[i];
      var path: seq<string> := [];
      if e.path.Some? {
        var j := 0;
        while j < |e.path.value|
          invariant 0 <= j <= |e.path.value|
          invariant path == e.path.value[..j]
        {
          path := path + [e.path.value[j]];
          j := j + 1;
        }
        assert e.path.value[..j] == e.path.value;
      }
      assert path == Segments(e.path);
      warnings := warnings + [Diagnostic(Warning, e.details + " (" + Join(path, ".") + ")")];
      assert details[..i + 1][..i] == details[..i];
      assert WarningsFor(details[..i + 1]) == WarningsFor(details[..i]) + [WarningFor(e)];
      i := i + 1;
    }
    assert details[..i] == details;
    diags := warnings + [Diagnostic(Error, err.value.message)];
  }

  lemma {:induction false} WarningsForAt(ds: seq<ErrorDetail>)
    ensures |WarningsFor(ds)| == |ds|
    ensures forall i | 0 <= i < |ds| :: WarningsFor(ds)[i] == WarningFor(ds[i])
  {
    if ds != [] {
      WarningsForAt(ds[..|ds| - 1]);
    }
  }

  /** A nil error gives no diagnostics at all. */
  lemma TranslateNil()
    ensures Translate(None) == []
  {
  }

  /** An error that is not an API error response passes through as one Error with its message. */
  lemma TranslateOther(e: ClientError)
    requires !e.ErrorResponse?
    ensures Translate(Some(e)) == [Diagnostic(Error, e.message)]
  {
  }

  /**
   * An API error response with n details gives n warnings, in the order of the
   * details and formatted as `"<detail> (<path>)"`, then exactly one Error
   * carrying the top-level message.
   */
  lemma TranslateResponse(message: string, details: seq<ErrorDetail>)
    ensures var r := Translate(Some(ErrorResponse(message, details)));
      && |r| == |details| + 1
      && (forall i | 0 <= i < |details| ::
            r[i] == Diagnostic(Warning, details[i].details + " (" + Join(Segments(details[i].path), ".") + ")"))
      && r[|details|] == Diagnostic(Error, message)
  {
    WarningsForAt(details);
  }

  /**
   * Whatever the error, the translation holds an Error diagnostic exactly when
   * there was an error, and then only one, in last position.
   */
  lemma TranslateHasOneTerminalError(err: Option<ClientError>)
    ensures err.None? <==> Translate(err) == []
    ensures err.Some? ==>
      forall i | 0 <= i < |Translate(err)| :: Translate(err)[i].severity == Error <==> i == |Translate(err)| - 1
  {
    if err.Some? && err.value.ErrorResponse? {
      WarningsForAt(err.value.details);
    }
  }

  /** An absent path and an empty path both render as `"<detail> ()"`. */
  lemma AbsentPathRendersEmpty(detail: string)
    ensures WarningFor(ErrorDetail(None, detail)).summary == detail + " ()"
    ensures WarningFor(ErrorDetail(Some([]), detail)).summary == detail + " ()"
  {
  }

  /** The cases of contentful/errors_test.go. */
  lemma TranslateExamples()
    ensures Translate(None) == []
    ensures Translate(Some(OtherError("regular error"))) == [Diagnostic(Error, "regular error")]
    ensures Translate(Some(ErrorResponse("error message", []))) == [Diagnostic(Error, "error message")]
  {
  }

  lemma TranslateExampleWithoutPath()
    ensures Translate(Some(ErrorResponse("error message", [ErrorDetail(None, "error detail")])))
         == [Diagnostic(Warning, "error detail ()"), Diagnostic(Error, "error message")]
  {
    var one := [ErrorDetail(None, "error detail")];
    assert one[..0] == [];
    assert WarningsFor(one) == [WarningFor(one[0])];
    assert "error detail" + " (" + "" + ")" == "error detail ()";
  }

  lemma TranslateExampleWithPath()
    ensures Translate(Some(ErrorResponse("error message", [ErrorDetail(Some(["path", "to", "error"]), "error detail")])))
         == [Diagnostic(Warning, "error detail (path.to.error)"), Diagnostic(Error, "error message")]
  {
    var withPath := [ErrorDetail(Some(["path", "to", "error"]), "error detail")];
    assert withPath[..0] == [];
    assert WarningsFor(withPath) == [WarningFor(withPath[0])];
    assert "error detail" + " (" + "path.to.error" + ")" == "error detail (path.to.error)";
    assert Join(["path", "to", "error"], ".") == "path.to.error" by {
      assert ["path", "to", "error"][1..] == ["to", "error"];
      assert ["to", "error"][1..] == ["error"];
    }
  }
}
