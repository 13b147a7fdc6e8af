/**
 * The values the site-extension core exchanges with its collaborators: the
 * extension descriptor, the constants it compares against, and HTTP status
 * codes.
 */
module Contracts {
  import opened Nullable

  /**
   * `SiteExtensionInfo`, as far as the core reads and writes it. Every field
   * is a nullable string.
   */
  datatype SiteExtensionInfo = SiteExtensionInfo(
    id: Option<string>,
    version: Option<string>,
    feedUrl: Option<string>,
    provisioningState: Option<string>,
    comment: Option<string>)

  /** `new SiteExtensionInfo()`: every field null. */
  const EmptyInfo := SiteExtensionInfo(None, None, None, None, None)

  /** `new SiteExtensionInfo { Id = id }`: a descriptor holding only the id. */
  function BareInfo(id: string): SiteExtensionInfo {
    EmptyInfo.(id := Some(id))
  }

  const ProvisioningStateCreated := "Created"
  const ProvisioningStateSucceeded := "Succeeded"
  const ProvisioningStateFailed := "Failed"
  const OperationInstall := "Install"

  /**
   * An HTTP status code. `Unrecorded` is what the settings record's `Status`
   * property yields when the record stores no status; which code that is, is
   * decided by code outside this model.
   */
  datatype StatusCode = Code(value: int) | Unrecorded

  const OK := Code(200)
  const Created := Code(201)
  const Accepted := Code(202)
  const NotFound := Code(404)
}
