/**
 * The part of the file system the GPU server touches: which paths exist and which
 * file handles are open. Writes of uploaded files, deletions of temporary files and
 * the handle the callback opens on the output image are the only changes.
 */
module Files {

  class FileSystem {
    var present: set<string>
    var openHandles: multiset<string>

    constructor(initial: set<string>)
      ensures present == initial && openHandles == multiset{}
    {
      present := initial;
      openHandles := multiset{};
    }

    /** `open(path, "rb")` on an existing file. */
    method Open(path: string)
      requires path in present
      modifies this
      ensures present == old(present)
      ensures openHandles == old(openHandles) + multiset{path}
    {
      openHandles := openHandles + multiset{path};
    }

    /** `handle.close()`. */
    method Close(path: string)
      requires path in openHandles
      modifies this
      ensures present == old(present)
      ensures openHandles == old(openHandles) - multiset{path}
    {
      openHandles := openHandles - multiset{path};
    }

    /** Writing a file creates it (or overwrites it). */
    method Write(path: string)
      modifies this
      ensures present == old(present) + {path}
      ensures openHandles == old(openHandles)
    {
      present := present + {path};
    }

    /** `cleanup_file`: removes the file if it exists and never raises. */
    method Remove(path: string)
      modifies this
      ensures present == old(present) - {path}
      ensures openHandles == old(openHandles)
    {
      present := present - {path};
    }
  }
}
