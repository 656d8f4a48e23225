/** The exception classes the messaging library throws, one constructor per class. */
module Exceptions {

  datatype FcmException =
    | CanNotMixRecipientTypes
    | MissingTargets
    | ExceededLimitOfTopics
    | MissingMultipleTopicsCondition
    | CountOfTopicsDoesNotMatchConditionPattern
    | ExceededLimitOfDevices
    | InvalidRgbFormatOfAndroidColor
    | AndroidFcmNotificationCanNotBeSilenced
    | ClickActionForJavascriptFcmNotificationRequiresValidUrl
    | ClickActionForJavascriptFcmNotificationHasToBeOnHttps
      /** the failure of a call to a method the target class does not define */
    | UndefinedMethod(name: string)
}
