/**
 * Fluent request builders: each accumulates the fields of one command, and `Go` assembles
 * the command record handed to the client.
 */
module Commands {
  import opened Wrappers
  import opened Text
  import opened Framework

  /** An opaque parameter value (`Object`). */
  datatype Value = Value(id: nat)

  /** The command records of the framework. */
  datatype Command =
    | DirCommand(name: string, options: set<string>, entry: Entry, pattern: Option<string>,
        destination: Option<string>, parameters: map<string, Value>)
    | PutCommand(name: string, options: set<string>, sources: seq<Option<Outgoing>>, entry: Entry,
        parameters: map<string, Value>)
    | GetCommand(name: string, options: set<string>, entry: Entry, incoming: Option<Incoming>,
        parameters: map<string, Value>)
    | OtherCommand(name: string, options: set<string>, source: Option<string>, destination: Option<string>,
        parameters: map<string, Value>, text: string)

  /** The textual form of a one-argument command: its name, one space, the source. */
  function OneArgText(name: string, source: Option<string>): (r: string)
    ensures StartsWith(r, name + " ") && r[|name| + 1..] == JavaStr(source)
  {
    name + " " + JavaStr(source)
  }

  /** The textual form of a rename: "RENAME", the source, the destination, separated by single spaces. */
  function RenameText(source: Option<string>, destination: Option<string>): (r: string)
    ensures StartsWith(r, "RENAME ") && |r| == 8 + |JavaStr(source)| + |JavaStr(destination)|
    ensures r[7..7 + |JavaStr(source)|] == JavaStr(source)
    ensures r[7 + |JavaStr(source)|] == ' ' && r[8 + |JavaStr(source)|..] == JavaStr(destination)
  {
    "RENAME " + JavaStr(source) + " " + JavaStr(destination)
  }

  /** A source containing a space makes the RENAME text ambiguous: two different renames print alike. */
  lemma RenameTextAmbiguous()
    ensures RenameText(Some("a b"), Some("c")) == RenameText(Some("a"), Some("b c"))
  {
    assert RenameText(Some("a b"), Some("c")) == "RENAME a b c";
    assert RenameText(Some("a"), Some("b c")) == "RENAME a b c";
  }

  class Dir {
    var path: Option<string>
    var options: set<string>
    var pattern: Option<string>

    constructor ()
      ensures path.None? && options == {} && pattern.None?
    {
      path, options, pattern := None, {}, None;
    }

    method SetPath(path: Option<string>) returns (self: Dir)
      modifies this
      ensures self == this && this.path == path && options == old(options) && pattern == old(pattern)
    {
      this.path := path;
      return this;
    }

    method AddOption(option: string) returns (self: Dir)
      modifies this
      ensures self == this && options == old(options) + {option} && path == old(path) && pattern == old(pattern)
    {
      options := options + {option};
      return this;
    }

    method SetPattern(pattern: Option<string>) returns (self: Dir)
      modifies this
      ensures self == this && this.pattern == pattern && options == old(options) && path == old(path)
    {
      this.pattern := pattern;
      return this;
    }

    /** A DIR command for a directory entry at the path, with no destination and no parameters. */
    function Go(): (c: Command)
      reads this
      ensures c.DirCommand? && c.name == "DIR" && c.options == options && c.pattern == pattern
      ensures c.entry == Entry(DirType, path)
      ensures c.destination.None? && c.parameters == map[]
    {
      DirCommand("DIR", options, Entry(DirType, path), pattern, None, map[])
    }
  }

  class Put {
    var source: Option<Outgoing>
    var destination: Option<string>
    var options: set<string>
    var parameters: map<string, Value>

    constructor ()
      ensures source.None? && destination.None? && options == {} && parameters == map[]
    {
      source, destination, options, parameters := None, None, {}, map[];
    }

    method SetSource(source: Option<Outgoing>) returns (self: Put)
      modifies this
      ensures self == this && this.source == source
      ensures destination == old(destination) && options == old(options) && parameters == old(parameters)
    {
      this.source := source;
      return this;
    }

    method SetDestination(destination: Option<string>) returns (self: Put)
      modifies this
      ensures self == this && this.destination == destination
      ensures source == old(source) && options == old(options) && parameters == old(parameters)
    {
      this.destination := destination;
      return this;
    }

    method AddOption(option: string) returns (self: Put)
      modifies this
      ensures self == this && options == old(options) + {option}
      ensures source == old(source) && destination == old(destination) && parameters == old(parameters)
    {
      options := options + {option};
      return this;
    }

    method PutParameter(parameter: string, value: Value) returns (self: Put)
      modifies this
      ensures self == this && parameters == old(parameters)[parameter := value]
      ensures source == old(source) && destination == old(destination) && options == old(options)
    {
      parameters := parameters[parameter := value];
      return this;
    }

    /** A PUT command with a one-element source array and the destination as a file entry. */
    function Go(): (c: Command)
      reads this
      ensures c.PutCommand? && c.name == "PUT" && c.options == options && c.parameters == parameters
      ensures c.sources == [source] && c.entry == Entry(FileType, destination)
    {
      PutCommand("PUT", options, [source], Entry(FileType, destination), parameters)
    }
  }

  class Get {
    var source: Option<string>
    var destination: Option<Incoming>
    var options: set<string>
    var parameters: map<string, Value>

    constructor ()
      ensures source.None? && destination.None? && options == {} && parameters == map[]
    {
      source, destination, options, parameters := None, None, {}, map[];
    }

    method SetSource(source: Option<string>) returns (self: Get)
      modifies this
      ensures self == this && this.source == source
      ensures destination == old(destination) && options == old(options) && parameters == old(parameters)
    {
      this.source := source;
      return this;
    }

    method SetDestination(destination: Option<Incoming>) returns (self: Get)
      modifies this
      ensures self == this && this.destination == destination
      ensures source == old(source) && options == old(options) && parameters == old(parameters)
    {
      this.destination := destination;
      return this;
    }

    method AddOption(option: string) returns (self: Get)
      modifies this
      ensures self == this && options == old(options) + {option}
      ensures source == old(source) && destination == old(destination) && parameters == old(parameters)
    {
      options := options + {option};
      return this;
    }

    method PutParameter(parameter: string, value: Value) returns (self: Get)
      modifies this
      ensures self == this && parameters == old(parameters)[parameter := value]
      ensures source == old(source) && destination == old(destination) && options == old(options)
    {
      parameters := parameters[parameter := value];
      return this;
    }

    /** A GET command with the source as a file entry. */
    function Go(): (c: Command)
      reads this
      ensures c.GetCommand? && c.name == "GET" && c.options == options && c.parameters == parameters
      ensures c.entry == Entry(FileType, source) && c.incoming == destination
    {
      GetCommand("GET", options, Entry(FileType, source), destination, parameters)
    }
  }

  class Delete {
    var source: Option<string>
    var options: set<string>

    constructor ()
      ensures source.None? && options == {}
    {
      source, options := None, {};
    }

    method SetSource(source: Option<string>) returns (self: Delete)
      modifies this
      ensures self == this && this.source == source && options == old(options)
    {
      this.source := source;
      return this;
    }

    method AddOption(option: string) returns (self: Delete)
      modifies this
      ensures self == this && options == old(options) + {option} && source == old(source)
    {
      options := options + {option};
      return this;
    }

    /** "DELETE source", with the builder's options, no destination and no parameters. */
    function Go(): (c: Command)
      reads this
      ensures c.OtherCommand? && c.name == "DELETE" && c.options == options && c.source == source
      ensures c.destination.None? && c.parameters == map[] && c.text == OneArgText("DELETE", source)
    {
      OtherCommand("DELETE", options, source, None, map[], "DELETE " + JavaStr(source))
    }
  }

  class Mkdir {
    var source: Option<string>

    constructor ()
      ensures source.None?
    {
      source := None;
    }

    method SetSource(source: Option<string>) returns (self: Mkdir)
      modifies this
      ensures self == this && this.source == source
    {
      this.source := source;
      return this;
    }

    /** "MKDIR source", with no options, no destination and no parameters. */
    function Go(): (c: Command)
      reads this
      ensures c.OtherCommand? && c.name == "MKDIR" && c.options == {} && c.source == source
      ensures c.destination.None? && c.parameters == map[] && c.text == OneArgText("MKDIR", source)
    {
      OtherCommand("MKDIR", {}, source, None, map[], "MKDIR " + JavaStr(source))
    }
  }

  class Rmdir {
    var source: Option<string>

    constructor ()
      ensures source.None?
    {
      source := None;
    }

    method SetSource(source: Option<string>) returns (self: Rmdir)
      modifies this
      ensures self == this && this.source == source
    {
      this.source := source;
      return this;
    }

    /** "RMDIR source", with no options, no destination and no parameters. */
    function Go(): (c: Command)
      reads this
      ensures c.OtherCommand? && c.name == "RMDIR" && c.options == {} && c.source == source
      ensures c.destination.None? && c.parameters == map[] && c.text == OneArgText("RMDIR", source)
    {
      OtherCommand("RMDIR", {}, source, None, map[], "RMDIR " + JavaStr(source))
    }
  }

  class Rename {
    var source: Option<string>
    var destination: Option<string>

    constructor ()
      ensures source.None? && destination.None?
    {
      source, destination := None, None;
    }

    method SetSource(source: Option<string>) returns (self: Rename)
      modifies this
      ensures self == this && this.source == source && destination == old(destination)
    {
      this.source := source;
      return this;
    }

    method SetDestination(destination: Option<string>) returns (self: Rename)
      modifies this
      ensures self == this && this.destination == destination && source == old(source)
    {
      this.destination := destination;
      return this;
    }

    /** "RENAME source destination", with no options and no parameters. */
    function Go(): (c: Command)
      reads this
      ensures c.OtherCommand? && c.name == "RENAME" && c.options == {} && c.parameters == map[]
      ensures c.source == source && c.destination == destination
      ensures c.text == RenameText(source, destination)
    {
      OtherCommand("RENAME", {}, source, destination, map[], "RENAME " + JavaStr(source) + " " + JavaStr(destination))
    }
  }

  class Attr {
    var source: Option<string>

    constructor ()
      ensures source.None?
    {
      source := None;
    }

    method SetSource(source: Option<string>) returns (self: Attr)
      modifies this
      ensures self == this && this.source == source
    {
      this.source := source;
      return this;
    }

    /** The path whose attributes are asked of the client. */
    function Go(): (path: Option<string>)
      reads this
      ensures path == source
    {
      source
    }
  }

  // ---------------------------------------------------------------------------
  // Factories: each sets exactly the named fields
  // ---------------------------------------------------------------------------

  method NewDir(path: Option<string>) returns (d: Dir)
    ensures fresh(d) && d.path == path && d.options == {} && d.pattern.None?
  {
    d := new Dir();
    d := d.SetPath(path);
  }

  method NewPut(source: Option<Outgoing>, path: Option<string>) returns (p: Put)
    ensures fresh(p) && p.source == source && p.destination == path && p.options == {} && p.parameters == map[]
  {
    p := new Put();
    p := p.SetSource(source);
    p := p.SetDestination(path);
  }

  method NewGet(path: Option<string>, destination: Option<Incoming>) returns (g: Get)
    ensures fresh(g) && g.source == path && g.destination == destination && g.options == {} && g.parameters == map[]
  {
    g := new Get();
    g := g.SetSource(path);
    g := g.SetDestination(destination);
  }

  method NewDelete(path: Option<string>) returns (d: Delete)
    ensures fresh(d) && d.source == path && d.options == {}
  {
    d := new Delete();
    d := d.SetSource(path);
  }

  method NewMkdir(path: Option<string>) returns (m: Mkdir)
    ensures fresh(m) && m.source == path
  {
    m := new Mkdir();
    m := m.SetSource(path);
  }

  method NewRmdir(path: Option<string>) returns (r: Rmdir)
    ensures fresh(r) && r.source == path
  {
    r := new Rmdir();
    r := r.SetSource(path);
  }

  method NewRename(source: Option<string>, destination: Option<string>) returns (r: Rename)
    ensures fresh(r) && r.source == source && r.destination == destination
  {
    r := new Rename();
    r := r.SetSource(source);
    r := r.SetDestination(destination);
  }

  method NewAttr(path: Option<string>) returns (a: Attr)
    ensures fresh(a) && a.source == path
  {
    a := new Attr();
    a := a.SetSource(path);
  }
}
