/**
 * The application-wide state shared by the pages: the current page and its
 * parameters, the console's visibility and the saved enrollment form.
 */
module AppContext {
  import opened JsValues

  const EmptyObject: JsValue := JObj(map[])

  /** The form state before anything is saved: no cards, nothing selected,
      no form data, terms not accepted. */
  const InitialFormState: JsValue := JObj(map[
    "cards" := JArr([]),
    "selectedCards" := EmptyObject,
    "formData" := EmptyObject,
    "termsAccepted" := JBool(false)])

  class AppState {
    var page: string
    /** Kept enabled for the whole session; only its visibility changes. */
    const consoleEnabled: bool
    var consoleVisible: bool
    var pageParams: JsValue
    var applicationFormState: JsValue

    constructor ()
      ensures page == "dashboard" && consoleEnabled && !consoleVisible
      ensures pageParams == EmptyObject && applicationFormState == InitialFormState
    {
      page := "dashboard";
      consoleEnabled := true;
      consoleVisible := false;
      pageParams := EmptyObject;
      applicationFormState := InitialFormState;
    }

    /** `navigateTo(pageName, params = {})`: both are replaced; an undefined
        `params` takes the default. */
    method NavigateTo(pageName: string, params: JsValue)
      modifies this
      ensures page == pageName
      ensures pageParams == (if params.JUndefined? then EmptyObject else params)
      ensures consoleVisible == old(consoleVisible) && applicationFormState == old(applicationFormState)
    {
      page := pageName;
      pageParams := if params.JUndefined? then EmptyObject else params;
    }

    method ToggleConsoleVisibility()
      modifies this
      ensures consoleVisible == !old(consoleVisible)
      ensures page == old(page) && pageParams == old(pageParams) && applicationFormState == old(applicationFormState)
    {
      consoleVisible := !consoleVisible;
    }

    /** The whole form state is replaced, not merged. */
    method SaveApplicationFormState(state: JsValue)
      modifies this
      ensures applicationFormState == state
      ensures page == old(page) && pageParams == old(pageParams) && consoleVisible == old(consoleVisible)
    {
      applicationFormState := state;
    }
  }

  /** Toggling the console twice restores its visibility and changes nothing else. */
  method ToggleTwice(app: AppState)
    modifies app
    ensures app.consoleVisible == old(app.consoleVisible)
    ensures app.page == old(app.page) && app.pageParams == old(app.pageParams)
    ensures app.applicationFormState == old(app.applicationFormState)
  {
    app.ToggleConsoleVisibility();
    app.ToggleConsoleVisibility();
  }
}
