/** The ways in which the data-file layer fails. In the source every one of them
    ends the process (an uncaught exception or `sys.exit(0)`); here they are values. */
module Errors {

  datatype Error =
    /** configparser: the section or the key is absent */
    | NoOption(section: string, key: string)
    /** configparser: the key is present but does not read as the requested type */
    | BadValue(section: string, key: string, kind: string)
    /** an empty file was asked of a format that cannot be written */
    | EmptyNotWritable(fileName: string)
    /** the file's extension is not one the format accepts */
    | BadExtension(extension: string, description: string)
    /** `_check_requierements_`: a field with no default could not be read from [data] */
    | MissingField(key: string, kind: string)
}
