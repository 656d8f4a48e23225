/**
 * The notification classes as one Dafny class.  The PHP hierarchy is
 * FcmNotification (base) -> DeviceFcmNotification (abstract) -> Android / iOS,
 * and FcmNotification -> web (JavaScript).  A notification's class never
 * changes, so it is a constant `kind`; each PHP layer's private fields are a
 * separate record, so fields that shadow a parent's private field of the same
 * name (`sound`, `tag`) stay apart.  The root array is the one every
 * notification inherits from the message class.
 */
module Notifications {
  import opened Wrappers
  import opened PhpJson
  import opened Exceptions
  import opened Payload

  // ----- Validators -------------------------------------------------------

  predicate IsHexDigit(c: char) {
    '0' <= c <= '9' || 'a' <= c <= 'f' || 'A' <= c <= 'F'
  }

  /**
   * `preg_match('~^#[0-9a-fA-F]{6}$~', $s)`.  Without the D modifier PCRE's `$`
   * also matches just before a final newline, so one trailing "\n" is let through.
   */
  predicate MatchesRgbPattern(s: string) {
    (|s| == 7 || (|s| == 8 && s[7] == '\n')) &&
    s[0] == '#' && forall k :: 1 <= k < 7 ==> IsHexDigit(s[k])
  }

  /** A reference reading of the pattern: '#', six hex digits, then nothing or one newline. */
  lemma RgbPatternMeaning(s: string)
    ensures MatchesRgbPattern(s) <==>
              exists h: string :: |h| == 6 && (forall k :: 0 <= k < 6 ==> IsHexDigit(h[k])) &&
                                  (s == "#" + h || s == "#" + h + "\n")
  {
    if MatchesRgbPattern(s) {
      var h := s[1..7];
      assert forall k :: 0 <= k < 6 ==> h[k] == s[k + 1];
      if |s| == 7 {
        assert s == "#" + h;
      } else {
        assert s == "#" + h + "\n";
      }
    }
    if exists h: string :: |h| == 6 && (forall k :: 0 <= k < 6 ==> IsHexDigit(h[k])) &&
                           (s == "#" + h || s == "#" + h + "\n") {
      var h: string :| |h| == 6 && (forall k :: 0 <= k < 6 ==> IsHexDigit(h[k])) &&
                       (s == "#" + h || s == "#" + h + "\n");
      assert forall k :: 1 <= k < 7 ==> s[k] == h[k - 1];
    }
  }

  /** The colour guard of `setColor`: "" or a #rrggbb value, case-insensitive. */
  function ColorCheck(color: string): (r: Outcome<FcmException>)
    ensures r.Pass? <==> color == "" || MatchesRgbPattern(color)
    ensures r.Fail? ==> r.error == InvalidRgbFormatOfAndroidColor
  {
    if color != "" && !MatchesRgbPattern(color) then Fail(InvalidRgbFormatOfAndroidColor) else Pass
  }

  lemma ColorExamples()
    ensures ColorCheck("#906090").Pass? && ColorCheck("#A0b1C2").Pass? && ColorCheck("").Pass?
    ensures ColorCheck("#906090\n").Pass?
    ensures ColorCheck("#gfffff") == Fail(InvalidRgbFormatOfAndroidColor)
    ensures ColorCheck("906090") == Fail(InvalidRgbFormatOfAndroidColor)
    ensures ColorCheck("#90609") == Fail(InvalidRgbFormatOfAndroidColor)
    ensures ColorCheck("#9060900") == Fail(InvalidRgbFormatOfAndroidColor)
  {
    assert !IsHexDigit("#gfffff"[1]);
    assert "906090"[0] != '#';
    assert "#9060900"[7] != '\n';
  }

  /** `strpos($s, 'https://') === 0`: the literal, case-sensitive scheme prefix. */
  predicate StartsWithHttps(s: string) {
    "https://" <= s
  }

  /**
   * `checkHttpsInClickAction`: an empty click action passes; otherwise it must be
   * a valid URL (checked first) and must start with "https://".  The URL
   * validator `filter_var(..., FILTER_VALIDATE_URL)` is the parameter isValidUrl.
   */
  function ClickActionCheck(clickAction: string, isValidUrl: string -> bool): (r: Outcome<FcmException>)
    ensures r.Pass? <==> clickAction == "" || (isValidUrl(clickAction) && StartsWithHttps(clickAction))
    ensures r == Fail(ClickActionForJavascriptFcmNotificationRequiresValidUrl) <==>
              clickAction != "" && !isValidUrl(clickAction)
    ensures r == Fail(ClickActionForJavascriptFcmNotificationHasToBeOnHttps) <==>
              clickAction != "" && isValidUrl(clickAction) && !StartsWithHttps(clickAction)
  {
    if clickAction == "" then Pass
    else if !isValidUrl(clickAction) then Fail(ClickActionForJavascriptFcmNotificationRequiresValidUrl)
    else if !StartsWithHttps(clickAction) then Fail(ClickActionForJavascriptFcmNotificationHasToBeOnHttps)
    else Pass
  }

  /** The scheme test is case-sensitive: a valid "HTTPS://" or "http://" URL is refused. */
  lemma ClickActionSchemeExamples(isValidUrl: string -> bool)
    requires isValidUrl("http://example.com") && isValidUrl("HTTPS://example.com") && isValidUrl("https://example.com")
    ensures ClickActionCheck("http://example.com", isValidUrl) == Fail(ClickActionForJavascriptFcmNotificationHasToBeOnHttps)
    ensures ClickActionCheck("HTTPS://example.com", isValidUrl) == Fail(ClickActionForJavascriptFcmNotificationHasToBeOnHttps)
    ensures ClickActionCheck("https://example.com", isValidUrl) == Pass
  {
    assert !StartsWithHttps("http://example.com") by { assert "http://example.com"[4] != 's'; }
    assert !StartsWithHttps("HTTPS://example.com") by { assert "HTTPS://example.com"[0] != 'h'; }
    assert StartsWithHttps("https://example.com") by { assert "https://example.com"[..8] == "https://"; }
  }

  // ----- The notification -------------------------------------------------

  class Notification {
    const kind: Kind
    var jsonData: Obj
    var base: BaseFields
    var device: DeviceFields
    var android: AndroidFields
    var ios: IosFields
    var js: JsFields

    /** The root array is a PHP array: no key occurs twice. */
    predicate Valid()
      reads this`jsonData
    {
      UniqueKeys(jsonData)
    }

    /** `new FcmNotification(...)`: the base class, with its constructor's defaults. */
    constructor Base(title: string, body: string, sound: string := "", clickAction: string := "", tag: string := "",
                     contentAvailable: Option<bool> := None, iosBadge: int := 0, androidIcon: string := "")
      ensures Valid()
      ensures kind == BaseKind && jsonData == []
      ensures base == BaseFields(title, body, iosBadge, androidIcon, sound, clickAction, tag, contentAvailable)
      ensures device == DefaultDevice && android == DefaultAndroid && ios == DefaultIos && js == DefaultJs
    {
      kind := BaseKind;
      jsonData := [];
      base := BaseFields(title, body, iosBadge, androidIcon, sound, clickAction, tag, contentAvailable);
      device := DefaultDevice;
      android := DefaultAndroid;
      ios := DefaultIos;
      js := DefaultJs;
    }

    /**
     * `new AndroidFcmNotification(...)`.  The colour is stored unchecked.  As
     * written, the click action reaches the base `$sound` (see ForwardedParentFields).
     */
    constructor Android(title: string := "", body: string := "", androidChannelId: string := "", icon: string := "",
                        sound: string := "", tag: string := "", color: string := "", clickAction: string := "",
                        bodyLocKey: string := "", bodyLocArgs: seq<Json> := [], titleLocKey: string := "",
                        titleLocArgs: seq<Json> := [])
      ensures Valid()
      ensures kind == AndroidKind && jsonData == []
      ensures base == ForwardedParentFields(title, body, clickAction)
      ensures device == DeviceFields(sound, bodyLocKey, bodyLocArgs, titleLocKey, titleLocArgs)
      ensures android == AndroidFields(androidChannelId, icon, tag, color)
      ensures ios == DefaultIos && js == DefaultJs
    {
      kind := AndroidKind;
      jsonData := [];
      base := ForwardedParentFields(title, body, clickAction);
      device := DeviceFields(sound, bodyLocKey, bodyLocArgs, titleLocKey, titleLocArgs);
      android := AndroidFields(androidChannelId, icon, tag, color);
      ios := DefaultIos;
      js := DefaultJs;
    }

    /** `new IosFcmNotification(...)`; a null badge is None, and the click action reaches the base `$sound`. */
    constructor Ios(title: string := "", body: string := "", sound: string := "", badge: Option<int> := None,
                    clickAction: string := "", subTitle: string := "", silent: bool := false,
                    bodyLocKey: string := "", bodyLocArgs: seq<Json> := [], titleLocKey: string := "",
                    titleLocArgs: seq<Json> := [])
      ensures Valid()
      ensures kind == IosKind && jsonData == []
      ensures base == ForwardedParentFields(title, body, clickAction)
      ensures device == DeviceFields(sound, bodyLocKey, bodyLocArgs, titleLocKey, titleLocArgs)
      ensures ios == IosFields(badge, subTitle, silent)
      ensures android == DefaultAndroid && js == DefaultJs
    {
      kind := IosKind;
      jsonData := [];
      base := ForwardedParentFields(title, body, clickAction);
      device := DeviceFields(sound, bodyLocKey, bodyLocArgs, titleLocKey, titleLocArgs);
      ios := IosFields(badge, subTitle, silent);
      android := DefaultAndroid;
      js := DefaultJs;
    }

    /**
     * The web constructor once its click action has passed the check; see NewJs.
     * As in the device classes, the click action reaches the base `$sound`.
     */
    constructor Js(isValidUrl: string -> bool, title: string := "", body: string := "", icon: string := "",
                   clickAction: string := "")
      requires ClickActionCheck(clickAction, isValidUrl).Pass?
      ensures Valid()
      ensures kind == JsKind && jsonData == []
      ensures base == ForwardedParentFields(title, body, clickAction)
      ensures js == JsFields(icon)
      ensures device == DefaultDevice && android == DefaultAndroid && ios == DefaultIos
    {
      kind := JsKind;
      jsonData := [];
      base := ForwardedParentFields(title, body, clickAction);
      js := JsFields(icon);
      device := DefaultDevice;
      android := DefaultAndroid;
      ios := DefaultIos;
    }

    /**
     * `new JsFcmNotification(...)`: the click action is checked before anything
     * is assigned, so a refused one yields no notification at all.
     */
    static method NewJs(isValidUrl: string -> bool, title: string := "", body: string := "", icon: string := "",
                        clickAction: string := "")
      returns (r: Result<Notification, FcmException>)
      ensures ClickActionCheck(clickAction, isValidUrl).Fail? ==>
                r == Failure(ClickActionCheck(clickAction, isValidUrl).error)
      ensures ClickActionCheck(clickAction, isValidUrl).Pass? ==>
                r.Success? && fresh(r.value) && r.value.Valid() && r.value.kind == JsKind &&
                r.value.jsonData == [] && r.value.js == JsFields(icon) &&
                r.value.base == ForwardedParentFields(title, body, clickAction) &&
                r.value.device == DefaultDevice
    {
      var check := ClickActionCheck(clickAction, isValidUrl);
      if check.Fail? {
        return Failure(check.error);
      }
      var n := new Notification.Js(isValidUrl, title, body, icon, clickAction);
      return Success(n);
    }

    /** `jsonSerialize()` of the notification's class. */
    function JsonSerialize(): (r: Obj)
      reads this
      ensures r == NotificationJson(kind, jsonData, base, device, android, ios, js)
      ensures Valid() ==> UniqueKeys(r)
    {
      if Valid() then NotificationJsonUnique(kind, jsonData, base, device, android, ios, js); NotificationJson(kind, jsonData, base, device, android, ios, js)
      else NotificationJson(kind, jsonData, base, device, android, ios, js)
    }

    // ----- Base setters ----------------------------------------------------

    method SetIosBadge(iosBadge: int)
      modifies this`base
      ensures base == old(base).(iosBadge := iosBadge)
    {
      base := base.(iosBadge := iosBadge);
    }

    method SetAndroidIcon(androidIcon: string)
      modifies this`base
      ensures base == old(base).(androidIcon := androidIcon)
    {
      base := base.(androidIcon := androidIcon);
    }

    /** The base setter, inherited unchanged by every class: the web class runs no https check here. */
    method SetClickAction(actionName: string)
      modifies this`base
      ensures base == old(base).(clickAction := actionName)
    {
      base := base.(clickAction := actionName);
    }

    /** The device classes override `setSound` to write their own field; the others write the base one. */
    method SetSound(sound: string)
      modifies this`base, this`device
      ensures kind.IsDevice() ==> device == old(device).(sound := sound) && base == old(base)
      ensures !kind.IsDevice() ==> base == old(base).(sound := sound) && device == old(device)
    {
      if kind.IsDevice() {
        device := device.(sound := sound);
      } else {
        base := base.(sound := sound);
      }
    }

    /** Android overrides `setTag` to write its own field; the others write the base one. */
    method SetTag(tag: string)
      modifies this`base, this`android
      ensures kind == AndroidKind ==> android == old(android).(tag := tag) && base == old(base)
      ensures kind != AndroidKind ==> base == old(base).(tag := tag) && android == old(android)
    {
      if kind == AndroidKind {
        android := android.(tag := tag);
      } else {
        base := base.(tag := tag);
      }
    }

    method EnableContentAvailable()
      modifies this`base
      ensures base == old(base).(contentAvailable := Some(true))
    {
      base := base.(contentAvailable := Some(true));
    }

    /** `disableContentAvailable()` as intended: the flag becomes false. */
    method DisableContentAvailable()
      modifies this`base
      ensures base == Payload.DisableContentAvailableIntended(old(base))
    {
      base := DisableContentAvailableIntended(base);
    }

    /** `disableContentAvailable()` as written: it stores true, exactly as enabling does. */
    method DisableContentAvailableAsWritten()
      modifies this`base
      ensures base == Payload.DisableContentAvailableAsWritten(old(base))
    {
      base := Payload.DisableContentAvailableAsWritten(base);
    }

    // ----- Device setters ---------------------------------------------------

    method SetBodyLocKey(bodyLocKey: string)
      requires kind.IsDevice()
      modifies this`device
      ensures device == old(device).(bodyLocKey := bodyLocKey)
    {
      device := device.(bodyLocKey := bodyLocKey);
    }

    method SetBodyLocArgs(bodyLocArgs: seq<Json>)
      requires kind.IsDevice()
      modifies this`device
      ensures device == old(device).(bodyLocArgs := bodyLocArgs)
    {
      device := device.(bodyLocArgs := bodyLocArgs);
    }

    method SetTitleLocKey(titleLocKey: string)
      requires kind.IsDevice()
      modifies this`device
      ensures device == old(device).(titleLocKey := titleLocKey)
    {
      device := device.(titleLocKey := titleLocKey);
    }

    method SetTitleLocArgs(titleLocArgs: seq<Json>)
      requires kind.IsDevice()
      modifies this`device
      ensures device == old(device).(titleLocArgs := titleLocArgs)
    {
      device := device.(titleLocArgs := titleLocArgs);
    }

    // ----- Android and web setters -----------------------------------------

    method SetAndroidChannelId(androidChannelId: string)
      requires kind == AndroidKind
      modifies this`android
      ensures android == old(android).(androidChannelId := androidChannelId)
    {
      android := android.(androidChannelId := androidChannelId);
    }

    /** `setIcon` exists on Android and on the web class, each writing its own field. */
    method SetIcon(icon: string)
      requires kind == AndroidKind || kind == JsKind
      modifies this`android, this`js
      ensures kind == AndroidKind ==> android == old(android).(icon := icon) && js == old(js)
      ensures kind == JsKind ==> js == old(js).(icon := icon) && android == old(android)
    {
      if kind == AndroidKind {
        android := android.(icon := icon);
      } else {
        js := js.(icon := icon);
      }
    }

    /** `setColor`: a refused colour raises the error before the field is assigned. */
    method SetColor(color: string) returns (r: Outcome<FcmException>)
      requires kind == AndroidKind
      modifies this`android
      ensures r == ColorCheck(color)
      ensures r.Pass? ==> android == old(android).(color := color)
      ensures r.Fail? ==> android == old(android)
    {
      r := ColorCheck(color);
      if r.Pass? {
        android := android.(color := color);
      }
    }

    // ----- Silence ---------------------------------------------------------

    /** `isSilent()` of the device classes: never for Android, the stored flag for iOS. */
    function IsSilent(): (r: bool)
      requires kind.IsDevice()
      reads this`ios
      ensures kind == AndroidKind ==> !r
      ensures kind == IosKind ==> r == ios.silent
    {
      kind == IosKind && ios.silent
    }

    /** `canBeSilenced()`, which only Android declares: it cannot. */
    function CanBeSilenced(): (r: bool)
      requires kind == AndroidKind
      ensures !r
    {
      false
    }

    /** `setSilent`: Android always raises its error and changes nothing; iOS stores the flag. */
    method SetSilent(silent: bool) returns (r: Outcome<FcmException>)
      requires kind.IsDevice()
      modifies this`ios
      ensures kind == AndroidKind ==> r == Fail(AndroidFcmNotificationCanNotBeSilenced) && ios == old(ios)
      ensures kind == IosKind ==> r.Pass? && ios == old(ios).(silent := silent)
    {
      if kind == AndroidKind {
        return Fail(AndroidFcmNotificationCanNotBeSilenced);
      }
      ios := ios.(silent := silent);
      return Pass;
    }

    method SetBadge(badge: Option<int>)
      requires kind == IosKind
      modifies this`ios
      ensures ios == old(ios).(badge := badge)
    {
      ios := ios.(badge := badge);
    }

    method SetSubTitle(subTitle: string)
      requires kind == IosKind
      modifies this`ios
      ensures ios == old(ios).(subTitle := subTitle)
    {
      ios := ios.(subTitle := subTitle);
    }

    // ----- The inherited root array ----------------------------------------

    method SetJsonDataValue(key: string, value: Json)
      requires Valid()
      modifies this`jsonData
      ensures Valid()
      ensures jsonData == Put(old(jsonData), key, value)
    {
      PutUnique(jsonData, key, value);
      jsonData := Put(jsonData, key, value);
    }

    method DeleteJsonDataItem(key: string)
      requires Valid()
      modifies this`jsonData
      ensures Valid()
      ensures jsonData == Unset(old(jsonData), key)
    {
      UnsetUnique(jsonData, key);
      jsonData := Unset(jsonData, key);
    }
  }
}
