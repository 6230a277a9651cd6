/** The notification surface (the useToast hook). A toast is recorded as an
    event appended to a log; its title, text and styling are not modelled. */
module Toasts {

  datatype Notice =
    | LoginSucceeded  // "authorization successful"
    | LoginFailed     // "authorization error", destructive variant
    | SettingsSaved   // "settings saved"
}
