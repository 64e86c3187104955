/** Types shared by the screen manager, the choice-set record and the preload operation. */
module Common {

  /** Stands for a nullable Java reference (and for a WeakReference whose referent may be gone). */
  datatype Option<+T> = None | Some(value: T) {
    function GetOr(default: T): T {
      match this
      case Some(v) => v
      case None => default
    }
  }

  /** An SdlArtwork: a named file, possibly one of the head unit's built-in static icons. */
  datatype Artwork = Artwork(name: string, isStaticIcon: bool)

  /** The Image RPC struct that refers to an artwork by file name, marked static or dynamic. */
  datatype ImageType = Static | Dynamic
  datatype Image = Image(value: string, imageType: ImageType)

  /** The Image RPC an artwork stands for (SdlArtwork.getImageRPC). */
  function ImageOf(artwork: Artwork): (r: Image)
    ensures r.value == artwork.name
    ensures r.imageType == Static <==> artwork.isStaticIcon
  {
    Image(artwork.name, if artwork.isStaticIcon then Static else Dynamic)
  }

  /** A choice the user can pick from a choice set (ChoiceCell). `text` is non-null in the source. */
  datatype ChoiceCell = ChoiceCell(
    text: string,
    secondaryText: Option<string>,
    tertiaryText: Option<string>,
    voiceCommands: Option<seq<string>>,
    artwork: Option<Artwork>,
    secondaryArtwork: Option<Artwork>,
    choiceId: int)

  /** What the core sees of the file manager: the artworks it reports as already uploaded. */
  datatype FileManager = FileManager(uploaded: set<Artwork>) {
    predicate HasUploadedFile(artwork: Artwork) {
      artwork in uploaded
    }
  }
}
