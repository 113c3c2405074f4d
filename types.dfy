/** Values that flow through the translation of a package link into a
    distribution: links, the artifacts and distributions collaborators hand
    back, the exceptions they raise, and the outcome of one translation. */
module TranslatorTypes {

  datatype Option<T> = None | Some(value: T)

  /** The exceptions that matter to the translators, by class.
      URLError stands for urllib's URLError and every subclass of it
      (HTTPError included); InstallFailure for Installer.InstallFailure. */
  datatype Error =
    | URLError(reason: string)
    | InstallFailure(reason: string)
    | ValueError(message: string)
    | OtherError(kind: string, detail: string)

  datatype Result<T> = Ok(value: T) | Err(error: Error)

  /** A collaborator call that either returns or raises. */
  datatype Step = Completed | Threw(error: Error)

  /** The class of a link object: SourceLink, EggLink, or any other link. */
  datatype LinkKind = SourceLink | EggLink | OtherLink

  /** A link is only read by the translators: its name, where it points,
      and its class. */
  datatype Link = Link(name: string, url: string, kind: LinkKind)

  type Platform = string
  type PythonVersion = string

  /** What lies at a path handed back by fetch or by the distiller:
      an unpacked egg directory, a zipped egg, or a file zipimport refuses. */
  datatype Layout = Directory | ZipArchive | NotAnArchive

  datatype Artifact = Artifact(path: string, layout: Layout)

  /** The metadata provider pkg_resources is given for an egg. */
  datatype Metadata =
    | PathMetadata(path: string, eggInfo: string)
    | EggMetadata(archive: string)

  /** An installed distribution: where it lives and how its metadata is read. */
  datatype Distribution = Distribution(location: string, metadata: Metadata)

  /** What Installer.distribution() hands to the distiller. */
  datatype BuiltDist = BuiltDist(name: string, version: string)

  /** The result of one translate call: a distribution, a falsy return
      (None or any other falsy value), or an exception that propagates. */
  datatype Outcome = Resolved(dist: Distribution) | NotResolved | Raised(error: Error)
}
