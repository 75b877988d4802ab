/**
 * The fields of the configuration context that packages, instances and the
 * LTO helpers update in place: the compiler and linker flag lists and the
 * run environment, whose values are lists of directories such as `PATH`.
 * The read-only parts of the context (the paths of the package and target
 * trees, the hooks) are passed to the operations that read them.
 */
module Context {

  class Ctx {
    var cflags: seq<string>
    var ldflags: seq<string>
    var runenv: map<string, seq<string>>

    constructor(cflags: seq<string>, ldflags: seq<string>, runenv: map<string, seq<string>>)
      ensures this.cflags == cflags && this.ldflags == ldflags && this.runenv == runenv
    {
      this.cflags, this.ldflags, this.runenv := cflags, ldflags, runenv;
    }
  }
}
