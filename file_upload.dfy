/**
 * `ThemedFileUpload` of components/ui/ThemedFileUpload.tsx, reduced to its selection state:
 * `loading`, `selectedFile`, and the calls made to the `onError` and `onFileSelect` props.
 * Rendering and the `Alert` dialogs are not modelled.
 */
module FileUpload {
  import opened Wrappers
  import opened Text
  import opened ImagePicker

  /** `UploadedFile`. */
  datatype UploadedFile = UploadedFile(uri: string, mime: Option<string>, name: Option<string>, fileSize: Option<int>)

  function MaxBytes(maxSizeInMB: nat): nat {
    maxSizeInMB * 1024 * 1024
  }

  /** `validateFile`'s test: a truthy `fileSize` above the limit is refused; 0 or a missing size passes. */
  predicate Accepts(asset: Asset, maxSizeInMB: nat) {
    !(asset.fileSize.Some? && asset.fileSize.value != 0 && asset.fileSize.value > MaxBytes(maxSizeInMB))
  }

  function SizeMessage(maxSizeInMB: nat): string {
    "File size exceeds " + NatToString(maxSizeInMB) + "MB limit"
  }

  const PickFailedMessage := "Failed to pick image"

  /** The record built from an accepted asset: the uri defaults to `""`, the rest is copied. */
  function ToUploaded(asset: Asset): (f: UploadedFile)
    ensures f.uri == OrDefault(asset.uri, "")
    ensures f.mime == asset.mime && f.name == asset.fileName && f.fileSize == asset.fileSize
  {
    UploadedFile(if Truthy(asset.uri) then asset.uri.value else "", asset.mime, asset.fileName, asset.fileSize)
  }

  /** What one picker response does besides clearing `loading`. */
  datatype Effect = NoEffect | Reject(message: string) | Select(file: UploadedFile)

  /** `handleImagePickerResponse`, as the effect it has. */
  function PickerEffect(r: PickerResponse, maxSizeInMB: nat): (e: Effect)
    ensures r.didCancel ==> e == NoEffect
    ensures !r.didCancel && Truthy(r.errorCode) ==> e == Reject(OrDefault(r.errorMessage, PickFailedMessage))
    ensures !r.didCancel && !Truthy(r.errorCode) && !HasAsset(r) ==> e == NoEffect
    ensures e.Select? <==> !r.didCancel && !Truthy(r.errorCode) && HasAsset(r) && Accepts(r.assets.value[0], maxSizeInMB)
    ensures e.Select? ==> e.file == ToUploaded(r.assets.value[0])
    ensures !r.didCancel && !Truthy(r.errorCode) && HasAsset(r) && !Accepts(r.assets.value[0], maxSizeInMB) ==>
      e == Reject(SizeMessage(maxSizeInMB))
  {
    if r.didCancel then NoEffect
    else if Truthy(r.errorCode) then Reject(OrDefault(r.errorMessage, PickFailedMessage))
    else if !HasAsset(r) then NoEffect
    else
      var asset := r.assets.value[0];
      if !Accepts(asset, maxSizeInMB) then Reject(SizeMessage(maxSizeInMB)) else Select(ToUploaded(asset))
  }

  /** A picked file never exceeds the limit: its size is missing, 0 or at most `maxSizeInMB` MiB. */
  lemma SelectedWithinLimit(r: PickerResponse, maxSizeInMB: nat)
    requires PickerEffect(r, maxSizeInMB).Select?
    ensures var f := PickerEffect(r, maxSizeInMB).file;
      f.fileSize.None? || f.fileSize.value == 0 || f.fileSize.value <= maxSizeInMB * 1048576
  {
  }

  /** The limit is inclusive: a file of exactly `maxSizeInMB` MiB is taken, one byte more is refused. */
  lemma LimitIsInclusive(asset: Asset, maxSizeInMB: nat)
    ensures Accepts(asset.(fileSize := Some(maxSizeInMB * 1048576)), maxSizeInMB)
    ensures !Accepts(asset.(fileSize := Some(maxSizeInMB * 1048576 + 1)), maxSizeInMB)
  {
  }

  /** Only the first asset is looked at: the ones after it change nothing. */
  lemma OnlyFirstAssetCounts(r: PickerResponse, more: seq<Asset>, maxSizeInMB: nat)
    requires HasAsset(r)
    ensures PickerEffect(r.(assets := Some([r.assets.value[0]] + more)), maxSizeInMB) == PickerEffect(r, maxSizeInMB)
  {
  }

  class FileUploadState {
    const maxSizeInMB: nat
    var loading: bool
    var selected: Option<UploadedFile>
    /** The arguments `onError` was called with, oldest first. */
    var errors: seq<string>
    /** The arguments `onFileSelect` was called with, oldest first (`None` for null). */
    var selections: seq<Option<UploadedFile>>

    /** The selection starts as the `value` prop (`value || null`); `maxSizeInMB` defaults to 10. */
    constructor (value: Option<UploadedFile>, maxSizeInMB: nat)
      ensures this.maxSizeInMB == maxSizeInMB && selected == value
      ensures !loading && errors == [] && selections == []
    {
      this.maxSizeInMB := maxSizeInMB;
      loading := false;
      selected := value;
      errors := [];
      selections := [];
    }

    /** `handleCamera` and `handleGallery` up to the picker call. */
    method StartPicking()
      modifies this
      ensures loading
      ensures selected == old(selected) && errors == old(errors) && selections == old(selections)
    {
      loading := true;
    }

    method HandlePickerResponse(r: PickerResponse)
      modifies this
      ensures !loading
      ensures match PickerEffect(r, maxSizeInMB)
        case NoEffect => selected == old(selected) && errors == old(errors) && selections == old(selections)
        case Reject(m) => selected == old(selected) && errors == old(errors) + [m] && selections == old(selections)
        case Select(f) => selected == Some(f) && errors == old(errors) && selections == old(selections) + [Some(f)]
    {
      loading := false;
      if r.didCancel {
        return;
      }
      if Truthy(r.errorCode) {
        var error := OrDefault(r.errorMessage, PickFailedMessage);
        errors := errors + [error];
        return;
      }
      if HasAsset(r) {
        var asset := r.assets.value[0];
        if !Accepts(asset, maxSizeInMB) {
          errors := errors + [SizeMessage(maxSizeInMB)];
          return;
        }
        var file := UploadedFile(if Truthy(asset.uri) then asset.uri.value else "", asset.mime, asset.fileName, asset.fileSize);
        selected := Some(file);
        selections := selections + [Some(file)];
      }
    }

    method HandleRemove()
      modifies this
      ensures selected == None && selections == old(selections) + [None]
      ensures loading == old(loading) && errors == old(errors)
    {
      selected := None;
      selections := selections + [None];
    }
  }
}
