/** The device identity query: it reads the connected device's name and
    product type through the lockdown service and turns them into one output
    record and an exit code.

    Each read is given by what it answers: a value, which may be `None`, or
    the exception it raised. */
module DeviceName {
  import opened Common

  /** The lockdown session's answers: the `display_name` property and the
      `DeviceName` and `ProductType` values. */
  datatype Lockdown = Lockdown(
    displayName: Attempt<Option<string>>,
    deviceName: Attempt<Option<string>>,
    productType: Attempt<Option<string>>)

  /** The record printed: the device's identity, or one of the two errors. */
  datatype Report =
    | DeviceInfo(name: Option<string>, model: string)
    | NoDevice(message: string)
    | NoLibrary

  /** The model reported when the device gives no product type. */
  const UnknownModel := "iOS Device"

  /** Python truthiness of an optional string. */
  predicate Truthy(v: Option<string>) {
    v.Some? && v.value != ""
  }

  /** `get_device_name()`: `connect` is what `create_using_usbmux()` gives,
      or the exception it raised. `display_name or get_value('DeviceName')`
      only reads `DeviceName` when the display name is falsy, and
      `get_value('ProductType') or 'iOS Device'` falls back to the
      placeholder. Any exception gives the `NO_DEVICE` record. */
  function GetDeviceName(connect: Attempt<Lockdown>): (r: (Report, int))
    ensures r.0 != NoLibrary
    ensures r.1 == (if r.0.DeviceInfo? then 0 else 1)
    ensures r.0.DeviceInfo? ==> r.0.model != ""
  {
    match connect
    case Raised(message) => (NoDevice(message), 1)
    case Ok(lockdown) =>
      match lockdown.displayName
      case Raised(message) => (NoDevice(message), 1)
      case Ok(display) =>
        var name: Attempt<Option<string>> := if Truthy(display) then Ok(display) else lockdown.deviceName;
        match name
        case Raised(message) => (NoDevice(message), 1)
        case Ok(deviceName) =>
          match lockdown.productType
          case Raised(message) => (NoDevice(message), 1)
          case Ok(product) =>
            var model := if Truthy(product) then product.value else UnknownModel;
            (DeviceInfo(deviceName, model), 0)
  }

  /** The script as run: without the device library it prints the
      `NO_PYMOBILEDEVICE3` record and exits with 1. */
  function IdentityQuery(libraryAvailable: bool, connect: Attempt<Lockdown>): (r: (Report, int))
    ensures !libraryAvailable ==> r == (NoLibrary, 1)
    ensures libraryAvailable ==> r == GetDeviceName(connect)
  {
    if libraryAvailable then GetDeviceName(connect) else (NoLibrary, 1)
  }

  // ----------------------------------------------------------------- lemmas

  /** Exit code 0 exactly on a success record; every failure exits with 1. */
  lemma ExitCodeMeansSuccess(libraryAvailable: bool, connect: Attempt<Lockdown>)
    ensures var r := IdentityQuery(libraryAvailable, connect);
      (r.1 == 0 <==> r.0.DeviceInfo?) && (r.1 == 0 || r.1 == 1)
  {
  }

  /** The name is the display name when that is truthy, and the `DeviceName`
      value otherwise; the model is the product type when truthy, and the
      placeholder otherwise. */
  lemma NameAndModelFallback(lockdown: Lockdown)
    requires lockdown.displayName.Ok? && lockdown.productType.Ok?
    requires !Truthy(lockdown.displayName.value) ==> lockdown.deviceName.Ok?
    ensures var r := GetDeviceName(Ok(lockdown));
      var display := lockdown.displayName.value;
      var product := lockdown.productType.value;
      && r.1 == 0
      && r.0.name == (if Truthy(display) then display else lockdown.deviceName.value)
      && r.0.model == (if Truthy(product) then product.value else UnknownModel)
  {
  }

  /** A truthy display name short-circuits the fallback: the answer of the
      `DeviceName` read, even an exception, does not matter. */
  lemma DeviceNameUnreadWhenDisplayNameSet(lockdown: Lockdown, other: Attempt<Option<string>>)
    requires lockdown.displayName.Ok? && Truthy(lockdown.displayName.value)
    ensures GetDeviceName(Ok(lockdown)) == GetDeviceName(Ok(lockdown.(deviceName := other)))
  {
  }

  /** A failure that is reached gives `NO_DEVICE` with that exception's text:
      connecting, reading the display name, reading `DeviceName` when the
      display name is falsy, or reading `ProductType`. */
  lemma FailuresReportNoDevice(connect: Attempt<Lockdown>, message: string)
    requires
      || connect == Raised(message)
      || (connect.Ok? && connect.value.displayName == Raised(message))
      || (connect.Ok? && connect.value.displayName.Ok? && !Truthy(connect.value.displayName.value)
          && connect.value.deviceName == Raised(message))
      || (connect.Ok? && connect.value.displayName.Ok?
          && (Truthy(connect.value.displayName.value) || connect.value.deviceName.Ok?)
          && connect.value.productType == Raised(message))
    ensures GetDeviceName(connect) == (NoDevice(message), 1)
  {
  }

  /** The example device: named "MyPhone" and without a product type, it is
      reported under that name with the placeholder model. */
  lemma ExampleMyPhone(deviceName: Attempt<Option<string>>)
    ensures IdentityQuery(true, Ok(Lockdown(Ok(Some("MyPhone")), deviceName, Ok(None)))) ==
      (DeviceInfo(Some("MyPhone"), "iOS Device"), 0)
  {
  }
}
