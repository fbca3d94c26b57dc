/** The content-addressed storage backend (IPFS behind a gateway), as an
    oracle: the URI it assigns to each upload and the documents it serves are
    given, and every upload is recorded in order. */
module Storage {
  import opened Common

  /** Asset metadata as the caller supplies it. */
  datatype Metadata = Metadata(name: string, description: string, image: string)

  /** Metadata as read back from storage; `id` is the token id it belongs to. */
  datatype NftMetadata = NftMetadata(id: int, uri: string, name: string, description: string, image: string)

  /** A request to create a token with an initial supply. */
  datatype CreateCollectionArg = CreateCollectionArg(metadata: Metadata, supply: nat)

  /** The JSON document handed to `upload`, by what it was serialised from. */
  datatype Blob = CreateArgJson(arg: CreateCollectionArg) | MetadataJson(metadata: Metadata)

  /** One call of `upload(blob, contract, uploader)`. */
  datatype UploadEntry = UploadEntry(blob: Blob, contract: Option<Address>, uploader: Option<Address>)

  /** What the backend does, as given functions: the URI of the n-th upload,
      the documents it serves, and `NftMetadata.from_json`. */
  datatype Backend = Backend(
    uriOfUpload: nat -> string,
    documents: map<string, string>,
    decode: string -> Option<NftMetadata>)

  class IpfsStorage {
    const gatewayUrl: string
    const backend: Backend
    /** Every upload made so far, in order. */
    var uploads: seq<UploadEntry>

    constructor (gatewayUrl: string, backend: Backend)
      ensures this.gatewayUrl == gatewayUrl && this.backend == backend
      ensures uploads == []
    {
      this.gatewayUrl := gatewayUrl;
      this.backend := backend;
      uploads := [];
    }

    /** `upload(blob, contract, uploader)`: records the upload and returns the
        URI the backend assigns to it. */
    method Upload(blob: Blob, contract: Option<Address>, uploader: Option<Address>) returns (uri: string)
      modifies this`uploads
      ensures uploads == old(uploads) + [UploadEntry(blob, contract, uploader)]
      ensures uri == backend.uriOfUpload(|old(uploads)|)
    {
      uri := backend.uriOfUpload(|uploads|);
      uploads := uploads + [UploadEntry(blob, contract, uploader)];
    }

    /** `NftMetadata.from_json(get(uri))`: fails when the backend serves
        nothing at the URI, or something that is not metadata. */
    function Fetch(uri: string): (r: Result<NftMetadata>)
      ensures r.Err? && r.error == NotFound <==> uri !in backend.documents
      ensures r.Err? ==> r.error in {NotFound, MalformedMetadata}
      ensures r.Ok? <==> uri in backend.documents && backend.decode(backend.documents[uri]).Some?
      ensures r.Ok? ==> uri in backend.documents && backend.decode(backend.documents[uri]) == Some(r.value)
    {
      if uri !in backend.documents then Err(NotFound)
      else match backend.decode(backend.documents[uri])
        case None => Err(MalformedMetadata)
        case Some(m) => Ok(m)
    }
  }
}
