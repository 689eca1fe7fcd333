/** `MSICreator` (creators/msi_creator.py): renders a WiX descriptor, writes
    it to the output directory and runs WiX's candle and then light on it.
    The identifiers `uuid.uuid4()` produces during one call are
    `env.uuid4(0)`, `env.uuid4(1)`, ... in the order they are drawn: the
    upgrade code first, then one per component. */
module MsiCreator {
  import opened Wrappers
  import opened Paths
  import opened Template
  import opened Effects
  import opened Creator
  import opened Flyweight
  import opened FlyweightFactory

  const ScriptFileName := "installer.wxs"
  const WixobjFileName := "installer.wixobj"
  /** `compile_msi_script` names the WiX tools by these local paths, which hide
      the `base_config` ones; `create_installer` uses the `base_config` ones. */
  const CandleExePath := "C:\\Program Files (x86)\\WiX Toolset v3.14\\bin\\candle.exe"
  const LightExePath := "C:\\Program Files (x86)\\WiX Toolset v3.14\\bin\\light.exe"
  const NoNameMessage := "Please enter a name for the MSI file."
  const NoWixobjMessage := ".wixobj file not created. Compilation may have failed."
  const SuccessMessage := "MSI installer created successfully in the output directory."

  // ---------------------------------------------------------------- text

  /** `str.upper` on the ASCII letters, the only letters a UUID's text holds. */
  function UpperChar(c: char): char {
    if 'a' <= c <= 'z' then (c as int - 32) as char else c
  }

  /** The capital letters, in alphabetical order. */
  const Capitals := "ABCDEFGHIJKLMNOPQRSTUVWXYZ"

  lemma CapitalsInOrder()
    ensures |Capitals| == 26
    ensures forall k :: 0 <= k < 26 ==> Capitals[k] as int == 'A' as int + k
  {
  }

  /** `str.upper` on the text of an identifier: no lower-case letter is left,
      each lower-case letter becomes the capital of the same place in the
      alphabet, and every other character is kept where it is. */
  function Upper(s: string): (r: string)
    ensures |r| == |s|
    ensures forall i :: 0 <= i < |s| ==> !('a' <= r[i] <= 'z')
    ensures forall i :: 0 <= i < |s| && !('a' <= s[i] <= 'z') ==> r[i] == s[i]
    ensures forall i :: 0 <= i < |s| && 'a' <= s[i] <= 'z' ==> r[i] == Capitals[s[i] as int - 'a' as int]
  {
    CapitalsInOrder();
    seq(|s|, i requires 0 <= i < |s| => UpperChar(s[i]))
  }

  /** Upper-casing twice is upper-casing once. */
  lemma UpperIdempotent(s: string)
    ensures Upper(Upper(s)) == Upper(s)
  {
  }

  /** Upper-casing changes letters only, so it never makes a quote. */
  lemma UpperNoQuote(s: string)
    requires '"' !in s
    ensures '"' !in Upper(s)
  {
    var r := Upper(s);
    forall i | 0 <= i < |r| ensures r[i] != '"' {
      assert s[i] != '"';
    }
  }

  // ---------------------------------------------------------- components

  /** The `<Component>` element `generate_components` renders for one file,
      grouped at its fields. */
  function ComponentXml(fileId: string, guid: string, sourcePath: string): string {
    "\n" + Spaces(12) + "<Component Id=\"" + fileId
      + ("\" Guid=\"" + guid
      + ("\">\n" + Spaces(16) + "<File Id=\"" + fileId
      + ("\" Source=\"" + sourcePath
      + "\" KeyPath=\"yes\" />\n" + Spaces(12) + "</Component>\n" + Spaces(12))))
  }

  /** The component of the i-th file, whose GUID is draw `firstDraw + i`. */
  function Component(req: Request, env: Env, firstDraw: nat, i: nat): string
    requires i < |req.fileList|
  {
    ComponentXml(Basename(req.fileList[i]), env.uuid4(firstDraw + i), Join(req.sourceDirectory, req.fileList[i]))
  }

  /** `components_xml` after the loop has handled the first `n` files. */
  function ComponentsUpTo(req: Request, env: Env, firstDraw: nat, n: nat): string
    requires n <= |req.fileList|
  {
    if n == 0 then "" else ComponentsUpTo(req, env, firstDraw, n - 1) + Component(req, env, firstDraw, n - 1)
  }

  /** `generate_components`: one component per file, in list order, the i-th
      file's GUID being the identifier drawn `firstDraw + i`-th in the call. */
  method GenerateComponents(req: Request, env: Env, firstDraw: nat) returns (componentsXml: string)
    ensures componentsXml == ComponentsUpTo(req, env, firstDraw, |req.fileList|)
  {
    componentsXml := "";
    for i := 0 to |req.fileList|
      invariant componentsXml == ComponentsUpTo(req, env, firstDraw, i)
    {
      var file := req.fileList[i];
      var fileId := Basename(file);
      var sourcePath := Join(req.sourceDirectory, file);
      var componentXml := ComponentXml(fileId, env.uuid4(firstDraw + i), sourcePath);
      componentsXml := componentsXml + componentXml;
    }
  }

  /** The `<ComponentRef>` element `generate_component_refs` renders for one file. */
  function RefXml(fileId: string): string {
    "<ComponentRef Id=\"" + fileId + "\" />"
  }

  /** `component_refs_xml` after the loop has handled the first `n` files. */
  function RefsUpTo(req: Request, n: nat): string
    requires n <= |req.fileList|
  {
    if n == 0 then "" else RefsUpTo(req, n - 1) + RefXml(Basename(req.fileList[n - 1]))
  }

  /** `generate_component_refs`: one reference per file, in list order, to the
      component of that file. */
  method GenerateComponentRefs(req: Request) returns (componentRefsXml: string)
    ensures componentRefsXml == RefsUpTo(req, |req.fileList|)
  {
    componentRefsXml := "";
    for i := 0 to |req.fileList|
      invariant componentRefsXml == RefsUpTo(req, i)
    {
      var file := req.fileList[i];
      var fileId := Basename(file);
      var componentRefXml := RefXml(fileId);
      componentRefsXml := componentRefsXml + componentRefXml;
    }
  }

  // ------------------------------------------------------------ the script

  /** The descriptor up to the components: fields are the product name, the
      upgrade code and the install folder's name. */
  const MsiHeaderTemplate: seq<string> := [
    "<?xml version=\"1.0\" encoding=\"UTF-8\"?>\n"
      + Spaces(24) + "<Wix xmlns=\"http://schemas.microsoft.com/wix/2006/wi\">\n"
      + Spaces(28) + "<Product Id=\"*\" Name=\"",
    "\"" + " Language=\"1033\" Version=\"1.0.0.0\" Manufacturer\n"
      + Spaces(28) + "=\"MyCompany\" UpgradeCode=\"",
    "\"" + ">" + Spaces(7) + "\n"
      + Spaces(32) + "<Package InstallerVersion=\"200\" Compressed=\"yes\" InstallScope=\"perMachine\" />\n"
      + Spaces(32) + "<Media Id=\"1\" Cabinet=\"media1.cab\" EmbedCab=\"yes\" />\n"
      + Spaces(32) + "<Directory Id=\"TARGETDIR\" Name=\"SourceDir\">\n"
      + Spaces(36) + "<Directory Id=\"ProgramFilesFolder\">\n"
      + Spaces(40) + "<Directory Id=\"INSTALLFOLDER\" Name=\"",
    "\"" + ">\n" + Spaces(44)]

  /** From the end of the components to the references: the field is the feature's title. */
  const FeatureTemplate: seq<string> := [
    "\n" + Spaces(40) + "</Directory>\n"
      + Spaces(36) + "</Directory>\n"
      + Spaces(32) + "</Directory>\n"
      + Spaces(32) + "<Feature Id=\"ProductFeature\" Title=\"",
    "\"" + " Level=\"1\">\n" + Spaces(36)]

  /** What follows the references. */
  const MsiTail: string :=
    "\n" + Spaces(32) + "</Feature>\n" + Spaces(28) + "</Product>\n" + Spaces(24) + "</Wix>\n" + Spaces(24)

  /** The f-string of `generate_msi_script` over its four parts. */
  function MsiText(name: string, upgradeCode: string, componentsXml: string, componentRefsXml: string): string {
    Fill(MsiHeaderTemplate, [name, upgradeCode, name]) + componentsXml
      + Fill(FeatureTemplate, [name]) + componentRefsXml + MsiTail
  }

  /** The text `generate_msi_script` returns: the upgrade code is the first
      identifier drawn, upper-cased; the components draw the ones after it. */
  function MsiScript(req: Request, env: Env): string {
    MsiText(req.installerName, Upper(env.uuid4(0)), ComponentsUpTo(req, env, 1, |req.fileList|),
            RefsUpTo(req, |req.fileList|))
  }

  /** `generate_msi_script`. */
  method GenerateMsiScript(req: Request, env: Env) returns (msiScript: string)
    ensures msiScript == MsiScript(req, env)
  {
    var newGuid := Upper(env.uuid4(0));
    var componentsXml := GenerateComponents(req, env, 1);
    var componentRefsXml := GenerateComponentRefs(req);
    msiScript := MsiText(req.installerName, newGuid, componentsXml, componentRefsXml);
  }

  // ------------------------------------------------------- reading it back

  /** One `<Component>` as read back. */
  datatype ComponentEntry = ComponentEntry(id: string, guid: string, fileId: string, source: string)

  /** What reading a rendered descriptor back gives. */
  datatype MsiDocument = MsiDocument(
    productName: string,
    upgradeCode: string,
    folderName: string,
    components: seq<ComponentEntry>,
    featureTitle: string,
    refs: seq<string>)

  const ComponentTemplate: seq<string> := [
    "\n" + Spaces(12) + "<Component Id=\"",
    "\" Guid=\"",
    "\">\n" + Spaces(16) + "<File Id=\"",
    "\" Source=\"",
    "\" KeyPath=\"yes\" />\n" + Spaces(12) + "</Component>\n" + Spaces(12)]

  const RefTemplate: seq<string> := ["<ComponentRef Id=\"", "\" />"]

  lemma MsiTemplatesWellFormed()
    ensures WellFormed(MsiHeaderTemplate) && WellFormed(FeatureTemplate)
    ensures WellFormed(ComponentTemplate) && WellFormed(RefTemplate)
    ensures MsiHeaderTemplate[1][0] == '"' && MsiHeaderTemplate[2][0] == '"' && MsiHeaderTemplate[3][0] == '"'
    ensures FeatureTemplate[1][0] == '"'
    ensures ComponentTemplate[1][0] == '"' && ComponentTemplate[2][0] == '"'
    ensures ComponentTemplate[3][0] == '"' && ComponentTemplate[4][0] == '"'
    ensures RefTemplate[1][0] == '"'
  {
  }

  function Entries(rows: seq<seq<string>>): (r: seq<ComponentEntry>)
    requires forall i :: 0 <= i < |rows| ==> |rows[i]| == 4
    ensures |r| == |rows|
    ensures forall i :: 0 <= i < |rows| ==> r[i] == ComponentEntry(rows[i][0], rows[i][1], rows[i][2], rows[i][3])
  {
    seq(|rows|, i requires 0 <= i < |rows| => ComponentEntry(rows[i][0], rows[i][1], rows[i][2], rows[i][3]))
  }

  function Ids(rows: seq<seq<string>>): (r: seq<string>)
    requires forall i :: 0 <= i < |rows| ==> |rows[i]| == 1
    ensures |r| == |rows| && forall i :: 0 <= i < |rows| ==> r[i] == rows[i][0]
  {
    seq(|rows|, i requires 0 <= i < |rows| => rows[i][0])
  }

  /** Reads a descriptor of the shape `generate_msi_script` renders. */
  function ParseMsiScript(s: string): Option<MsiDocument> {
    MsiTemplatesWellFormed();
    var header := Parse(MsiHeaderTemplate, s);
    if header.None? then None
    else
      var components := ParseMany(ComponentTemplate, header.value.1);
      var feature := Parse(FeatureTemplate, components.1);
      if feature.None? then None
      else
        var refs := ParseMany(RefTemplate, feature.value.1);
        if refs.1 != MsiTail then None
        else
          var h := header.value.0;
          Some(MsiDocument(h[0], h[1], h[2], Entries(components.0), feature.value.0[0], Ids(refs.0)))
  }

  lemma ComponentXmlFilled(fileId: string, guid: string, sourcePath: string)
    ensures Fill(ComponentTemplate, [fileId, guid, fileId, sourcePath]) == ComponentXml(fileId, guid, sourcePath)
  {
    var t, f := ComponentTemplate, [fileId, guid, fileId, sourcePath];
    assert Fill(t[3..], f[3..]) == t[3] + sourcePath + t[4] by {
      assert t[3..][1..] == [t[4]];
    }
    assert Fill(t[2..], f[2..]) == t[2] + fileId + Fill(t[3..], f[3..]) by {
      assert t[2..][1..] == t[3..] && f[2..][1..] == f[3..];
    }
    assert Fill(t[1..], f[1..]) == t[1] + guid + Fill(t[2..], f[2..]) by {
      assert t[1..][1..] == t[2..] && f[1..][1..] == f[2..];
    }
  }

  lemma RefXmlFilled(fileId: string)
    ensures Fill(RefTemplate, [fileId]) == RefXml(fileId)
  {
    assert RefTemplate[1..] == ["\" />"];
  }

  /** The fields of every component the loop renders for the first `n` files. */
  function ComponentRows(req: Request, env: Env, firstDraw: nat, n: nat): (rows: seq<seq<string>>)
    requires n <= |req.fileList|
    ensures |rows| == n
    ensures forall i :: 0 <= i < n ==>
              rows[i] == [Basename(req.fileList[i]), env.uuid4(firstDraw + i), Basename(req.fileList[i]),
                          Join(req.sourceDirectory, req.fileList[i])]
  {
    seq(n, i requires 0 <= i < n =>
      [Basename(req.fileList[i]), env.uuid4(firstDraw + i), Basename(req.fileList[i]),
       Join(req.sourceDirectory, req.fileList[i])])
  }

  lemma {:induction false} ComponentsFilled(req: Request, env: Env, firstDraw: nat, n: nat)
    requires n <= |req.fileList|
    ensures ComponentsUpTo(req, env, firstDraw, n) == FillAll(ComponentTemplate, ComponentRows(req, env, firstDraw, n))
  {
    if n > 0 {
      var f := req.fileList[n - 1];
      var id, guid, src := Basename(f), env.uuid4(firstDraw + n - 1), Join(req.sourceDirectory, f);
      var rows, row := ComponentRows(req, env, firstDraw, n - 1), [id, guid, id, src];
      assert ComponentRows(req, env, firstDraw, n) == rows + [row];
      assert ComponentsUpTo(req, env, firstDraw, n)
          == ComponentsUpTo(req, env, firstDraw, n - 1) + ComponentXml(id, guid, src);
      ComponentsFilled(req, env, firstDraw, n - 1);
      FillAllSnoc(ComponentTemplate, rows, row);
      ComponentXmlFilled(id, guid, src);
    }
  }

  /** The id of every reference the loop renders for the first `n` files. */
  function RefRows(req: Request, n: nat): (rows: seq<seq<string>>)
    requires n <= |req.fileList|
    ensures |rows| == n
    ensures forall i :: 0 <= i < n ==> rows[i] == [Basename(req.fileList[i])]
  {
    seq(n, i requires 0 <= i < n => [Basename(req.fileList[i])])
  }

  lemma {:induction false} RefsFilled(req: Request, n: nat)
    requires n <= |req.fileList|
    ensures RefsUpTo(req, n) == FillAll(RefTemplate, RefRows(req, n))
  {
    if n > 0 {
      var id := Basename(req.fileList[n - 1]);
      RefsFilled(req, n - 1);
      assert RefRows(req, n) == RefRows(req, n - 1) + [[id]];
      FillAllSnoc(RefTemplate, RefRows(req, n - 1), [id]);
      RefXmlFilled(id);
    }
  }

  /** Reading the components back gives one row per file, in order, when
      what follows is not itself a component. */
  lemma ComponentsRoundTrip(req: Request, env: Env, firstDraw: nat, rest: string)
    requires '"' !in req.sourceDirectory
    requires forall i :: 0 <= i < |req.fileList| ==> '"' !in req.fileList[i]
    requires forall k :: '"' !in env.uuid4(k)
    requires !IsPrefix(ComponentTemplate[0], rest)
    ensures WellFormed(ComponentTemplate)
    ensures ParseMany(ComponentTemplate, ComponentsUpTo(req, env, firstDraw, |req.fileList|) + rest)
         == (ComponentRows(req, env, firstDraw, |req.fileList|), rest)
  {
    MsiTemplatesWellFormed();
    var rows := ComponentRows(req, env, firstDraw, |req.fileList|);
    ComponentsFilled(req, env, firstDraw, |req.fileList|);
    forall i | 0 <= i < |rows|
      ensures |rows[i]| == 4 && Fits(ComponentTemplate, rows[i])
    {
      ComponentFieldsFit(req.sourceDirectory, req.fileList[i], env.uuid4(firstDraw + i));
    }
    ParseManyFillAll(ComponentTemplate, rows, rest);
  }

  lemma ComponentFieldsFit(dir: string, file: string, guid: string)
    requires '"' !in dir && '"' !in file && '"' !in guid
    ensures WellFormed(ComponentTemplate)
    ensures Fits(ComponentTemplate, [Basename(file), guid, Basename(file), Join(dir, file)])
  {
    ComponentTemplateQuoted();
    BasenameChars(file, '"');
    JoinChars(dir, file, '"');
    var fields := [Basename(file), guid, Basename(file), Join(dir, file)];
    forall i | 0 <= i < 4 ensures '"' !in fields[i] {
      if i == 0 || i == 2 { assert fields[i] == Basename(file); }
      else if i == 1 { assert fields[i] == guid; }
      else { assert fields[i] == Join(dir, file); }
    }
    FitsWhenFree(ComponentTemplate, fields, '"');
  }

  lemma ComponentTemplateQuoted()
    ensures WellFormed(ComponentTemplate)
    ensures forall i :: 0 < i < |ComponentTemplate| ==> ComponentTemplate[i][0] == '"'
  {
    MsiTemplatesWellFormed();
  }

  /** Reading the references back gives one id per file, in order, when what
      follows is not itself a reference. */
  lemma RefsRoundTrip(req: Request, rest: string)
    requires forall i :: 0 <= i < |req.fileList| ==> '"' !in req.fileList[i]
    requires !IsPrefix(RefTemplate[0], rest)
    ensures WellFormed(RefTemplate)
    ensures ParseMany(RefTemplate, RefsUpTo(req, |req.fileList|) + rest) == (RefRows(req, |req.fileList|), rest)
  {
    MsiTemplatesWellFormed();
    var rows := RefRows(req, |req.fileList|);
    RefsFilled(req, |req.fileList|);
    forall i | 0 <= i < |rows|
      ensures |rows[i]| == 1 && Fits(RefTemplate, rows[i])
    {
      BasenameChars(req.fileList[i], '"');
    }
    ParseManyFillAll(RefTemplate, rows, rest);
  }

  lemma HeaderRoundTrip(name: string, upgradeCode: string, rest: string)
    requires '"' !in name && '"' !in upgradeCode
    ensures WellFormed(MsiHeaderTemplate)
    ensures Parse(MsiHeaderTemplate, Fill(MsiHeaderTemplate, [name, upgradeCode, name]) + rest)
         == Some(([name, upgradeCode, name], rest))
  {
    MsiTemplatesWellFormed();
    assert Fits(MsiHeaderTemplate, [name, upgradeCode, name]);
    ParseFill(MsiHeaderTemplate, [name, upgradeCode, name], rest);
  }

  lemma FeatureRoundTrip(name: string, rest: string)
    requires '"' !in name
    ensures WellFormed(FeatureTemplate)
    ensures Parse(FeatureTemplate, Fill(FeatureTemplate, [name]) + rest) == Some(([name], rest))
  {
    MsiTemplatesWellFormed();
    assert Fits(FeatureTemplate, [name]);
    ParseFill(FeatureTemplate, [name], rest);
  }

  /** The text after the components starts by closing the directories, not with another component. */
  lemma FeatureIsNoComponent(name: string, rest: string)
    ensures !IsPrefix(ComponentTemplate[0], Fill(FeatureTemplate, [name]) + rest)
  {
    var s := Fill(FeatureTemplate, [name]) + rest;
    assert s[13] == FeatureTemplate[0][13] == ' ';
    assert ComponentTemplate[0][13] == '<';
  }

  /** The text after the references closes the feature, not another reference. */
  lemma TailIsNoRef()
    ensures !IsPrefix(RefTemplate[0], MsiTail)
  {
    assert MsiTail[0] == '\n' && RefTemplate[0][0] == '<';
  }

  /** The components a request is meant to get: for the i-th file, Id and
      File Id its basename, Guid the identifier drawn (i + 1)-th, and Source
      the file joined onto the source directory. */
  function ExpectedComponents(req: Request, env: Env): (r: seq<ComponentEntry>)
    ensures |r| == |req.fileList|
    ensures forall i :: 0 <= i < |r| ==>
              r[i] == ComponentEntry(Basename(req.fileList[i]), env.uuid4(1 + i), Basename(req.fileList[i]),
                                     Join(req.sourceDirectory, req.fileList[i]))
  {
    seq(|req.fileList|, i requires 0 <= i < |req.fileList| =>
      ComponentEntry(Basename(req.fileList[i]), env.uuid4(1 + i), Basename(req.fileList[i]),
                     Join(req.sourceDirectory, req.fileList[i])))
  }

  /** The basename of every file, in list order. */
  function FileIds(req: Request): (r: seq<string>)
    ensures |r| == |req.fileList| && forall i :: 0 <= i < |r| ==> r[i] == Basename(req.fileList[i])
  {
    seq(|req.fileList|, i requires 0 <= i < |req.fileList| => Basename(req.fileList[i]))
  }

  lemma MsiTextRegroup(h: string, c: string, f: string, r: string)
    ensures h + c + f + r + MsiTail == h + (c + (f + (r + MsiTail)))
  {
    AppendAssoc(h + c + f, r, MsiTail);
    AppendAssoc(h + c, f, r + MsiTail);
    AppendAssoc(h, c, f + (r + MsiTail));
  }

  /** The rendered descriptor names the product, the install folder and the
      feature after the installer, carries the upper-cased first identifier
      as upgrade code, holds exactly one component per file in list order
      inside INSTALLFOLDER and exactly one reference per file in the same
      order inside ProductFeature, the i-th reference naming the i-th
      component. Windows paths and the text of a UUID hold no quotes. */
  lemma MsiScriptRoundTrip(req: Request, env: Env)
    requires '"' !in req.installerName && '"' !in req.sourceDirectory
    requires forall i :: 0 <= i < |req.fileList| ==> '"' !in req.fileList[i]
    requires forall k :: '"' !in env.uuid4(k)
    ensures ParseMsiScript(MsiScript(req, env)) == Some(MsiDocument(
              req.installerName, Upper(env.uuid4(0)), req.installerName,
              ExpectedComponents(req, env), req.installerName, FileIds(req)))
    ensures forall i :: 0 <= i < |req.fileList| ==> FileIds(req)[i] == ExpectedComponents(req, env)[i].id
  {
    MsiScriptParses(req, env);
    ExpectedRows(req, env);
  }

  lemma MsiScriptParses(req: Request, env: Env)
    requires '"' !in req.installerName && '"' !in req.sourceDirectory
    requires forall i :: 0 <= i < |req.fileList| ==> '"' !in req.fileList[i]
    requires forall k :: '"' !in env.uuid4(k)
    ensures ParseMsiScript(MsiScript(req, env)) == Some(MsiDocument(
              req.installerName, Upper(env.uuid4(0)), req.installerName,
              Entries(ComponentRows(req, env, 1, |req.fileList|)), req.installerName,
              Ids(RefRows(req, |req.fileList|))))
  {
    var name, n := req.installerName, |req.fileList|;
    var code := Upper(env.uuid4(0));
    UpperNoQuote(env.uuid4(0));
    var f := Fill(FeatureTemplate, [name]);
    var r := RefsUpTo(req, n);
    var s3 := r + MsiTail;
    var s2 := f + s3;
    var s1 := ComponentsUpTo(req, env, 1, n) + s2;
    MsiTextRegroup(Fill(MsiHeaderTemplate, [name, code, name]), ComponentsUpTo(req, env, 1, n), f, r);
    HeaderRoundTrip(name, code, s1);
    FeatureIsNoComponent(name, s3);
    ComponentsRoundTrip(req, env, 1, s2);
    FeatureRoundTrip(name, s3);
    TailIsNoRef();
    RefsRoundTrip(req, MsiTail);
    ParseMsiScriptParts(MsiScript(req, env), [name, code, name], ComponentRows(req, env, 1, n), [name],
                        RefRows(req, n), s1, s2, s3);
  }

  /** What the reader gives when each of its stages succeeds. */
  lemma ParseMsiScriptParts(s: string, header: seq<string>, rows: seq<seq<string>>, feature: seq<string>,
                            refs: seq<seq<string>>, s1: string, s2: string, s3: string)
    requires WellFormed(MsiHeaderTemplate) && WellFormed(ComponentTemplate)
    requires WellFormed(FeatureTemplate) && WellFormed(RefTemplate)
    requires Parse(MsiHeaderTemplate, s) == Some((header, s1))
    requires ParseMany(ComponentTemplate, s1) == (rows, s2)
    requires Parse(FeatureTemplate, s2) == Some((feature, s3))
    requires ParseMany(RefTemplate, s3) == (refs, MsiTail)
    ensures ParseMsiScript(s) == Some(MsiDocument(header[0], header[1], header[2], Entries(rows), feature[0], Ids(refs)))
  {
  }

  lemma ExpectedRows(req: Request, env: Env)
    ensures Entries(ComponentRows(req, env, 1, |req.fileList|)) == ExpectedComponents(req, env)
    ensures Ids(RefRows(req, |req.fileList|)) == FileIds(req)
  {
  }

  /** A fresh upgrade code gives a different descriptor: the code is part of
      what is rendered, not a constant. */
  lemma UpgradeCodeIsRendered(req: Request, env1: Env, env2: Env)
    requires '"' !in req.installerName && '"' !in req.sourceDirectory
    requires forall i :: 0 <= i < |req.fileList| ==> '"' !in req.fileList[i]
    requires forall k :: '"' !in env1.uuid4(k)
    requires forall k :: '"' !in env2.uuid4(k)
    requires Upper(env1.uuid4(0)) != Upper(env2.uuid4(0))
    ensures MsiScript(req, env1) != MsiScript(req, env2)
  {
    MsiScriptParses(req, env1);
    MsiScriptParses(req, env2);
  }

  // ------------------------------------------------------------ the effects

  function ScriptPath(req: Request): string {
    Join(req.outputDirectory, ScriptFileName)
  }

  function WixobjPath(req: Request): string {
    Join(req.outputDirectory, WixobjFileName)
  }

  function MsiPath(req: Request): string {
    Join(req.outputDirectory, req.installerName + ".msi")
  }

  function CandleCommand(candle: string, req: Request): seq<string> {
    [candle, ScriptPath(req), "-o", WixobjPath(req)]
  }

  function LightCommand(light: string, req: Request): seq<string> {
    [light, WixobjPath(req), "-o", MsiPath(req)]
  }

  /** `create_installer`, as the trace of events it causes. */
  function MsiCreate(req: Request, env: Env): Trace {
    if req.fileList == [] then Trace([Report(NoFilesMessage)], Returned)
    else if req.installerName == "" then Trace([Report(NoNameMessage)], Returned)
    else
      match env.openError(ScriptPath(req))
      case Some(msg) => Trace([], Raised(msg))
      case None =>
        var written := [Write(ScriptPath(req), MsiScript(req, env))];
        var candle := CompileScript(CandleCommand(env.config.candleExePath, req), env);
        if candle.outcome.Raised? then Trace(written + candle.events, candle.outcome)
        else if !env.pathExists(WixobjPath(req)) then
          Trace(written + candle.events + [Report(NoWixobjMessage)], Returned)
        else
          var light := CompileScript(LightCommand(env.config.lightExePath, req), env);
          var events := written + candle.events + light.events;
          if light.outcome.Raised? then Trace(events, light.outcome)
          else Trace(events + [Report(SuccessMessage)], Returned)
  }

  /** Whether a call gets as far as the registry lookup. */
  predicate UsesRegistry(req: Request, env: Env) {
    req.fileList != [] && req.installerName != "" && env.openError(ScriptPath(req)).None?
  }

  /** `create_installer`: check the request, write the descriptor, fetch the
      "MSI" handle, run candle through it and, when `installer.wixobj` is
      there afterwards, light. */
  method CreateInstaller(req: Request, registry: InstallerFlyweightFactory, env: Env) returns (t: Trace)
    requires registry.Valid()
    modifies registry
    ensures t == MsiCreate(req, env)
    ensures registry.Valid()
    ensures registry.flyweights.Keys == old(registry.flyweights.Keys) + (if UsesRegistry(req, env) then {"MSI"} else {})
    ensures forall k :: k in old(registry.flyweights) ==> registry.flyweights[k] == old(registry.flyweights)[k]
  {
    if req.fileList == [] {
      return Trace([Report(NoFilesMessage)], Returned);
    }
    if req.installerName == "" {
      return Trace([Report(NoNameMessage)], Returned);
    }
    var msiScriptPath := Join(req.outputDirectory, ScriptFileName);
    if env.openError(msiScriptPath).Some? {
      return Trace([], Raised(env.openError(msiScriptPath).value));
    }
    var msiScript := GenerateMsiScript(req, env);
    var events := [Write(msiScriptPath, msiScript)];
    var wixobjFilePath := Join(req.outputDirectory, WixobjFileName);
    var candleCommand := [env.config.candleExePath, msiScriptPath, "-o", wixobjFilePath];
    var flyweight := registry.GetFlyweight("MSI");
    var candle := CompileScript(candleCommand, env);
    events := events + candle.events;
    if candle.outcome.Raised? {
      return Trace(events, candle.outcome);
    }
    if !env.pathExists(wixobjFilePath) {
      return Trace(events + [Report(NoWixobjMessage)], Returned);
    }
    var lightCommand := [env.config.lightExePath, wixobjFilePath, "-o", Join(req.outputDirectory, req.installerName + ".msi")];
    var light := CompileScript(lightCommand, env);
    events := events + light.events;
    if light.outcome.Raised? {
      return Trace(events, light.outcome);
    }
    t := Trace(events + [Report(SuccessMessage)], Returned);
  }

  /** An empty file list is rejected first, whatever the name: one message and
      nothing written or run. */
  lemma MsiRejectsEmptyFileList(req: Request, env: Env)
    requires req.fileList == []
    ensures MsiCreate(req, env) == Trace([Report(NoFilesMessage)], Returned)
    ensures Commands(MsiCreate(req, env).events) == []
  {
  }

  /** A missing name is rejected next: one message and nothing written or run. */
  lemma MsiRejectsEmptyName(req: Request, env: Env)
    requires req.fileList != [] && req.installerName == ""
    ensures MsiCreate(req, env) == Trace([Report(NoNameMessage)], Returned)
    ensures Commands(MsiCreate(req, env).events) == []
  {
  }

  /** A valid request first writes the descriptor to
      `<output>\installer.wxs` and then runs candle on it, with
      `<output>\installer.wixobj` as output. */
  lemma MsiValidRequestStart(req: Request, env: Env)
    requires req.fileList != [] && req.installerName != ""
    requires env.openError(ScriptPath(req)).None?
    ensures var t := MsiCreate(req, env);
            && |t.events| >= 2
            && t.events[0] == Write(Join(req.outputDirectory, "installer.wxs"), MsiScript(req, env))
            && t.events[1] == Spawn([env.config.candleExePath, Join(req.outputDirectory, "installer.wxs"), "-o",
                                     Join(req.outputDirectory, "installer.wixobj")])
  {
  }

  /** The commands a valid request runs: candle, then light exactly when
      candle could be started and `installer.wixobj` exists afterwards; light
      writes `<output>\<name>.msi`. */
  lemma {:induction false} MsiValidRequestCommands(req: Request, env: Env)
    requires req.fileList != [] && req.installerName != ""
    requires env.openError(ScriptPath(req)).None?
    ensures var candle := CandleCommand(env.config.candleExePath, req);
            var light := [env.config.lightExePath, WixobjPath(req), "-o", Join(req.outputDirectory, req.installerName + ".msi")];
            Commands(MsiCreate(req, env).events)
              == [candle] + (if env.spawn(candle).Completed? && env.pathExists(WixobjPath(req)) then [light] else [])
  {
    var written := [Write(ScriptPath(req), MsiScript(req, env))];
    var candleCmd := CandleCommand(env.config.candleExePath, req);
    var candle := CompileScript(candleCmd, env);
    var events := MsiCreate(req, env).events;
    CommandsNone(written);
    CommandsAppend(written, candle.events);
    assert Commands(written + candle.events) == [candleCmd];
    if candle.outcome.Raised? {
      assert events == written + candle.events;
    } else if !env.pathExists(WixobjPath(req)) {
      assert events == written + candle.events + [Report(NoWixobjMessage)];
      CommandsNone([Report(NoWixobjMessage)]);
      CommandsAppend(written + candle.events, [Report(NoWixobjMessage)]);
    } else {
      var lightCmd := LightCommand(env.config.lightExePath, req);
      var light := CompileScript(lightCmd, env);
      CommandsAppend(written + candle.events, light.events);
      assert Commands(written + candle.events + light.events) == [candleCmd] + [lightCmd];
      if light.outcome.Returned? {
        assert events == written + candle.events + light.events + [Report(SuccessMessage)];
        CommandsNone([Report(SuccessMessage)]);
        CommandsAppend(written + candle.events + light.events, [Report(SuccessMessage)]);
      } else {
        assert events == written + candle.events + light.events;
      }
    }
  }

  /** Without `installer.wixobj` after candle, light is never run and success
      is never reported: the call just says the file is missing. */
  lemma MsiMissingWixobj(req: Request, env: Env)
    requires req.fileList != [] && req.installerName != ""
    requires env.openError(ScriptPath(req)).None?
    requires env.spawn(CandleCommand(env.config.candleExePath, req)).Completed?
    requires !env.pathExists(WixobjPath(req))
    ensures var t := MsiCreate(req, env);
            && t.outcome == Returned
            && Report(NoWixobjMessage) in t.events
            && Report(SuccessMessage) !in t.events
            && Commands(t.events) == [CandleCommand(env.config.candleExePath, req)]
  {
    MsiValidRequestCommands(req, env);
    var written := [Write(ScriptPath(req), MsiScript(req, env))];
    var candle := CompileScript(CandleCommand(env.config.candleExePath, req), env);
    assert MsiCreate(req, env).events == written + candle.events + [Report(NoWixobjMessage)];
  }

  /** Success is reported exactly when candle and light could both be started
      and `installer.wixobj` was there in between; their exit statuses are
      printed but not acted on. */
  lemma MsiSuccess(req: Request, env: Env)
    ensures Report(SuccessMessage) in MsiCreate(req, env).events <==>
              (UsesRegistry(req, env)
               && env.spawn(CandleCommand(env.config.candleExePath, req)).Completed?
               && env.pathExists(WixobjPath(req))
               && env.spawn(LightCommand(env.config.lightExePath, req)).Completed?)
  {
    if UsesRegistry(req, env) {
      var written := [Write(ScriptPath(req), MsiScript(req, env))];
      var candle := CompileScript(CandleCommand(env.config.candleExePath, req), env);
      var light := CompileScript(LightCommand(env.config.lightExePath, req), env);
      assert Report(SuccessMessage) !in written + candle.events;
      assert Report(SuccessMessage) !in written + candle.events + [Report(NoWixobjMessage)];
      assert Report(SuccessMessage) !in written + candle.events + light.events;
    }
  }

  /** A call raises exactly when the descriptor cannot be opened, candle
      cannot be started, or light is due and cannot be started. */
  lemma MsiRaises(req: Request, env: Env)
    ensures MsiCreate(req, env).outcome.Raised? <==>
              (req.fileList != [] && req.installerName != ""
               && (env.openError(ScriptPath(req)).Some?
                   || env.spawn(CandleCommand(env.config.candleExePath, req)).SpawnFailed?
                   || (env.pathExists(WixobjPath(req))
                       && env.spawn(LightCommand(env.config.lightExePath, req)).SpawnFailed?)))
  {
  }

  // ------------------------------------------------------ compile_msi_script

  /** `compile_msi_script`, as the trace of events it causes: candle on the
      script; on a non-zero exit its stderr and stop; otherwise its stdout,
      the check for `installer.wixobj`, then light; on a non-zero exit its
      stderr, otherwise its stdout and the success message. */
  function CompileMsi(req: Request, msiScriptPath: string, env: Env): Trace {
    var candleCommand := [CandleExePath, msiScriptPath, "-o", WixobjPath(req)];
    match env.spawn(candleCommand)
    case SpawnFailed(msg) => Trace([Spawn(candleCommand)], Raised(msg))
    case Completed(candleCode, candleOut, candleErr) =>
      if candleCode != 0 then Trace([Spawn(candleCommand), Output("Candle error output: ", candleErr)], Returned)
      else
        var afterCandle := [Spawn(candleCommand), Output("Candle output: ", candleOut)];
        if !env.pathExists(WixobjPath(req)) then Trace(afterCandle + [Report(NoWixobjMessage)], Returned)
        else
          var lightCommand := LightCommand(LightExePath, req);
          match env.spawn(lightCommand)
          case SpawnFailed(msg) => Trace(afterCandle + [Spawn(lightCommand)], Raised(msg))
          case Completed(lightCode, lightOut, lightErr) =>
            if lightCode != 0 then
              Trace(afterCandle + [Spawn(lightCommand), Output("Light error output: ", lightErr)], Returned)
            else
              Trace(afterCandle + [Spawn(lightCommand), Output("Light output: ", lightOut), Report(SuccessMessage)], Returned)
  }

  /** `compile_msi_script`. */
  method CompileMsiScript(req: Request, msiScriptPath: string, env: Env) returns (t: Trace)
    ensures t == CompileMsi(req, msiScriptPath, env)
  {
    var candleExePath := CandleExePath;
    var lightExePath := LightExePath;
    var wixobjFilePath := Join(req.outputDirectory, WixobjFileName);
    var candleCommand := [candleExePath, msiScriptPath, "-o", wixobjFilePath];
    var events := [Spawn(candleCommand)];
    var candleResult := env.spawn(candleCommand);
    if candleResult.SpawnFailed? {
      return Trace(events, Raised(candleResult.message));
    }
    if candleResult.returncode != 0 {
      return Trace(events + [Output("Candle error output: ", candleResult.stderr)], Returned);
    }
    events := events + [Output("Candle output: ", candleResult.stdout)];
    if !env.pathExists(wixobjFilePath) {
      return Trace(events + [Report(NoWixobjMessage)], Returned);
    }
    var lightCommand := [lightExePath, wixobjFilePath, "-o", Join(req.outputDirectory, req.installerName + ".msi")];
    events := events + [Spawn(lightCommand)];
    var lightResult := env.spawn(lightCommand);
    if lightResult.SpawnFailed? {
      return Trace(events, Raised(lightResult.message));
    }
    if lightResult.returncode != 0 {
      return Trace(events + [Output("Light error output: ", lightResult.stderr)], Returned);
    }
    events := events + [Output("Light output: ", lightResult.stdout), Report(SuccessMessage)];
    t := Trace(events, Returned);
  }

  /** A non-zero candle exit stops the call before the check for
      `installer.wixobj` and before light: the trace is candle and its stderr,
      whatever the file system says. */
  lemma CandleFailureStops(req: Request, msiScriptPath: string, env: Env, present: string -> bool)
    requires var r := env.spawn([CandleExePath, msiScriptPath, "-o", WixobjPath(req)]);
             r.Completed? && r.returncode != 0
    ensures var r := env.spawn([CandleExePath, msiScriptPath, "-o", WixobjPath(req)]);
            CompileMsi(req, msiScriptPath, env)
              == Trace([Spawn([CandleExePath, msiScriptPath, "-o", WixobjPath(req)]), Output("Candle error output: ", r.stderr)], Returned)
    ensures CompileMsi(req, msiScriptPath, env.(pathExists := present)) == CompileMsi(req, msiScriptPath, env)
  {
  }

  /** Light is run exactly when candle exits zero and `installer.wixobj` exists. */
  lemma {:induction false} CompileMsiCommands(req: Request, msiScriptPath: string, env: Env)
    ensures var candle := [CandleExePath, msiScriptPath, "-o", WixobjPath(req)];
            var r := env.spawn(candle);
            Commands(CompileMsi(req, msiScriptPath, env).events)
              == [candle] + (if r.Completed? && r.returncode == 0 && env.pathExists(WixobjPath(req))
                             then [LightCommand(LightExePath, req)] else [])
  {
    var candle := [CandleExePath, msiScriptPath, "-o", WixobjPath(req)];
    var light := LightCommand(LightExePath, req);
    var events := CompileMsi(req, msiScriptPath, env).events;
    var r := env.spawn(candle);
    if r.Completed? && r.returncode == 0 {
      var afterCandle := [Spawn(candle), Output("Candle output: ", r.stdout)];
      assert Commands(afterCandle) == [candle];
      if env.pathExists(WixobjPath(req)) {
        var lr := env.spawn(light);
        var rest := if lr.SpawnFailed? then [Spawn(light)]
                    else if lr.returncode != 0 then [Spawn(light), Output("Light error output: ", lr.stderr)]
                    else [Spawn(light), Output("Light output: ", lr.stdout), Report(SuccessMessage)];
        assert events == afterCandle + rest;
        assert Commands(rest) == [light] by {
          assert Commands(rest[1..]) == [] by { CommandsNone(rest[1..]); }
        }
        CommandsAppend(afterCandle, rest);
      } else {
        CommandsAppend(afterCandle, [Report(NoWixobjMessage)]);
      }
    }
  }

  /** Success is printed exactly when candle and light both exit zero with
      `installer.wixobj` there in between. */
  lemma CompileMsiSuccess(req: Request, msiScriptPath: string, env: Env)
    ensures var candle := env.spawn([CandleExePath, msiScriptPath, "-o", WixobjPath(req)]);
            var light := env.spawn(LightCommand(LightExePath, req));
            Report(SuccessMessage) in CompileMsi(req, msiScriptPath, env).events <==>
              (candle.Completed? && candle.returncode == 0 && env.pathExists(WixobjPath(req))
               && light.Completed? && light.returncode == 0)
  {
  }

  /** The creator itself never logs: every log record of a run comes from around it. */
  lemma MsiNoLogs(req: Request, env: Env)
    ensures forall e :: e in MsiCreate(req, env).events ==> !e.Log?
  {
  }

  /** A candle that starts but exits non-zero has its stderr printed; the
      call does not stop on the exit status. */
  lemma MsiCandleErrorShown(req: Request, env: Env)
    requires req.fileList != [] && req.installerName != ""
    requires env.openError(ScriptPath(req)).None?
    requires var r := env.spawn(CandleCommand(env.config.candleExePath, req));
             r.Completed? && r.returncode != 0
    ensures Output("Error output: ", env.spawn(CandleCommand(env.config.candleExePath, req)).stderr)
              in MsiCreate(req, env).events
  {
    var candle := CompileScript(CandleCommand(env.config.candleExePath, req), env);
    assert MsiCreate(req, env).events[..1 + |candle.events|] == [Write(ScriptPath(req), MsiScript(req, env))] + candle.events;
    assert MsiCreate(req, env).events[2] == candle.events[1];
  }

  /** A light that starts but exits non-zero has its stderr printed, and the
      success message follows all the same. */
  lemma MsiLightErrorShown(req: Request, env: Env)
    requires req.fileList != [] && req.installerName != ""
    requires env.openError(ScriptPath(req)).None?
    requires env.spawn(CandleCommand(env.config.candleExePath, req)).Completed?
    requires env.pathExists(WixobjPath(req))
    requires var r := env.spawn(LightCommand(env.config.lightExePath, req));
             r.Completed? && r.returncode != 0
    ensures Output("Error output: ", env.spawn(LightCommand(env.config.lightExePath, req)).stderr)
              in MsiCreate(req, env).events
    ensures Report(SuccessMessage) in MsiCreate(req, env).events
  {
    var written := [Write(ScriptPath(req), MsiScript(req, env))];
    var candle := CompileScript(CandleCommand(env.config.candleExePath, req), env);
    var light := CompileScript(LightCommand(env.config.lightExePath, req), env);
    assert MsiCreate(req, env).events == written + candle.events + light.events + [Report(SuccessMessage)];
    assert MsiCreate(req, env).events[4] == light.events[1];
  }
}
