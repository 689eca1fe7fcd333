/** `InstallerCreator` (creators/abc_creator.py): what every creator is made
    with. The creators never change these fields, so a request is a value. */
module Creator {

  datatype Request = Request(
    sourceDirectory: string,
    outputDirectory: string,
    fileList: seq<string>,
    installerName: string)

  /** The message both creators print for an empty file list. */
  const NoFilesMessage := "No files selected. Please select files to include in the installer."
}
