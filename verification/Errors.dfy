/** The error hierarchy, by how the pipeline tells the kinds apart. */
module Errors {
  /** Unexpected stands for every exception outside the program's own hierarchy. */
  datatype Error = InvalidInput | MissingDependency | ExternalService | Unexpected
}
