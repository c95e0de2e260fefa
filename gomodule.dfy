/** The `module` package, as far as the output sink uses it: a module is
    known by its import path. Its version and display string only feed
    diagnostics and are not part of this model. */
module Modules {
  datatype Module = Module(path: string)
}
