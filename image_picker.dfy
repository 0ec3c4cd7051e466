/** The values react-native-image-picker hands to its callback, for the fields the app reads. */
module ImagePicker {
  import opened Wrappers

  /** `Asset`: every field is optional in the library's type. */
  datatype Asset = Asset(uri: Option<string>, mime: Option<string>, fileName: Option<string>, fileSize: Option<int>)

  /** `ImagePickerResponse`. `didCancel` absent is modelled as false. */
  datatype PickerResponse = PickerResponse(
    didCancel: bool,
    errorCode: Option<string>,
    errorMessage: Option<string>,
    assets: Option<seq<Asset>>)

  /** `response.assets && response.assets.length > 0`. */
  predicate HasAsset(r: PickerResponse) {
    r.assets.Some? && |r.assets.value| > 0
  }
}
