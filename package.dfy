/** The SCORM 1.2 package both services build: an IMS Content Packaging 1.1.2
    manifest (`imsmanifest.xml`), the course page (`index.html`) and three
    placeholder schema files, collected in an archive that maps member names to
    their text. */
module Package {
  import opened Wrappers
  import opened Text

  // ---------------------------------------------------------------------------
  // The manifest

  /** An `<item>` of the organization tree. `isvisible` and the ADL
      `masteryscore` are optional. */
  datatype Item = Item(
    identifier: string,
    identifierref: string,
    isvisible: Option<string>,
    title: string,
    masteryScore: Option<int>)

  datatype Organization = Organization(identifier: string, title: string, items: seq<Item>)

  /** A `<resource>`: its type, its ADL SCORM type, its launch file and its `<file>` list. */
  datatype Resource = Resource(
    identifier: string,
    resourceType: string,
    scormType: string,
    href: string,
    files: seq<string>)

  /** The IEEE LOM general block: a title and a description. */
  datatype Lom = Lom(title: string, description: string)

  datatype Manifest = Manifest(
    identifier: string,
    version: string,
    schema: string,
    schemaVersion: string,
    lom: Option<Lom>,
    defaultOrganization: string,
    organizations: seq<Organization>,
    resources: seq<Resource>)

  /** Every item of the manifest, organization by organization. */
  function AllItems(orgs: seq<Organization>): seq<Item> {
    if orgs == [] then [] else orgs[0].items + AllItems(orgs[1..])
  }

  predicate HasResource(m: Manifest, id: string) {
    exists r | r in m.resources :: r.identifier == id
  }

  /** The reference rules of IMS Content Packaging: the default organization is
      declared, every item refers to a declared resource, resource identifiers are
      unique and each resource lists its launch file among its files. */
  predicate WellFormed(m: Manifest) {
    (exists o | o in m.organizations :: o.identifier == m.defaultOrganization)
    && (forall it | it in AllItems(m.organizations) :: HasResource(m, it.identifierref))
    && (forall i, j | 0 <= i < j < |m.resources| :: m.resources[i].identifier != m.resources[j].identifier)
    && (forall r | r in m.resources :: r.href in r.files)
  }

  /** Every file a resource names is a member of the archive `members`. */
  predicate FilesPresent(m: Manifest, members: set<string>) {
    forall r | r in m.resources :: forall f | f in r.files :: f in members
  }

  // ---------------------------------------------------------------------------
  // Rendering as XML. Values are interpolated as they are, without escaping.

  function Attr(name: string, value: string): string {
    " " + name + "=\"" + value + "\""
  }

  const XmlDeclaration: string := "<?xml version=\"1.0\" " + "encoding=\"UTF-8\"?>\n"

  /** The namespace and schema-location attributes of the root element. */
  const RootNamespaces: string :=
    Attr("xmlns", "http://www.imsproject.org/xsd/" + "imscp_rootv1p1p2")
    + Attr("xmlns:adlcp", "http://www.adlnet.org/xsd/" + "adlcp_rootv1p2")
    + Attr("xmlns:xsi", "http://www.w3.org/2001/" + "XMLSchema-instance")
    + Attr("xsi:schemaLocation", "http://www.imsproject.org/xsd/" + "imscp_rootv1p1p2 "
      + "imscp_rootv1p1p2.xsd " + "http://www.imsglobal.org/xsd/" + "imsmd_rootv1p2p1 " + "imsmd_rootv1p2p1.xsd "
      + "http://www.adlnet.org/xsd/" + "adlcp_rootv1p2 " + "adlcp_rootv1p2.xsd")

  function RenderItem(it: Item): string {
    "<item" + Attr("identifier", it.identifier) + Attr("identifierref", it.identifierref)
    + (match it.isvisible case None => "" case Some(v) => Attr("isvisible", v)) + ">"
    + "<title>" + it.title + "</title>"
    + (match it.masteryScore
       case None => ""
       case Some(s) => "<adlcp:masteryscore>" + IntToDecimal(s) + "</adlcp:masteryscore>")
    + "</item>"
  }

  function RenderItems(items: seq<Item>): string {
    if items == [] then "" else RenderItem(items[0]) + RenderItems(items[1..])
  }

  function RenderOrganizations(orgs: seq<Organization>): string {
    if orgs == [] then ""
    else
      "<organization" + Attr("identifier", orgs[0].identifier) + ">"
      + "<title>" + orgs[0].title + "</title>" + RenderItems(orgs[0].items) + "</organization>"
      + RenderOrganizations(orgs[1..])
  }

  function RenderFiles(files: seq<string>): string {
    if files == [] then "" else "<file" + Attr("href", files[0]) + "/>" + RenderFiles(files[1..])
  }

  function RenderResources(rs: seq<Resource>): string {
    if rs == [] then ""
    else
      "<resource" + Attr("identifier", rs[0].identifier) + Attr("type", rs[0].resourceType)
      + Attr("adlcp:scormtype", rs[0].scormType) + Attr("href", rs[0].href) + ">"
      + RenderFiles(rs[0].files) + "</resource>"
      + RenderResources(rs[1..])
  }

  function RenderLom(lom: Option<Lom>): string {
    match lom
    case None => ""
    case Some(l) =>
      "<lom:lom><lom:general>"
      + "<lom:title><lom:langstring>" + l.title + "</lom:langstring>" + "</lom:title>"
      + "<lom:description>" + "<lom:langstring>" + l.description + "</lom:langstring>" + "</lom:description>"
      + "</lom:general></lom:lom>"
  }

  /** The start of the document, up to and including the root identifier. */
  function RootStart(identifier: string): string {
    XmlDeclaration + "<manifest" + Attr("identifier", identifier)
  }

  /** Everything after the root identifier. */
  function RenderRest(m: Manifest): string {
    Attr("version", m.version) + RootNamespaces + ">"
    + "<metadata><schema>" + m.schema + "</schema><schemaversion>" + m.schemaVersion + "</schemaversion>"
    + RenderLom(m.lom) + "</metadata>"
    + "<organizations" + Attr("default", m.defaultOrganization) + ">"
    + RenderOrganizations(m.organizations) + "</organizations>"
    + "<resources>" + RenderResources(m.resources) + "</resources>"
    + "</manifest>"
  }

  /** The text of `imsmanifest.xml`. */
  function Render(m: Manifest): string {
    RootStart(m.identifier) + RenderRest(m)
  }

  /** The manifest text opens with the XML declaration and the root element's
      `identifier` attribute. */
  lemma RenderStartsWithIdentifier(m: Manifest)
    ensures |RootStart(m.identifier)| <= |Render(m)|
    ensures Render(m)[..|RootStart(m.identifier)|] == RootStart(m.identifier)
  {
  }

  // ---------------------------------------------------------------------------
  // The archive

  const IndexMember: string := "index.html"
  const ManifestMember: string := "imsmanifest.xml"
  const CpSchemaMember: string := "imscp_rootv1p1p2.xsd"
  const MdSchemaMember: string := "imsmd_rootv1p2p1.xsd"
  const AdlcpSchemaMember: string := "adlcp_rootv1p2.xsd"

  /** The text written into each schema member. */
  const SchemaPlaceholder: string := "<!-- XSD şeması " + "burada olacak -->"

  const ArchiveMembers: set<string> := {IndexMember, ManifestMember, CpSchemaMember, MdSchemaMember, AdlcpSchemaMember}

  /** A JSZip archive being filled: member name to member text. */
  class Zip {
    var files: map<string, string>

    constructor()
      ensures files == map[]
    {
      files := map[];
    }

    /** `zip.file(name, content)`: adds the member or replaces its text. */
    method File(name: string, content: string)
      modifies this
      ensures files == old(files)[name := content]
    {
      files := files[name := content];
    }
  }

  /** The five `zip.file` calls that both services make, in their order. */
  method FillArchive(zip: Zip, content: string, manifestXml: string)
    modifies zip
    ensures zip.files == old(zip.files)[IndexMember := content][ManifestMember := manifestXml]
      [CpSchemaMember := SchemaPlaceholder][MdSchemaMember := SchemaPlaceholder][AdlcpSchemaMember := SchemaPlaceholder]
  {
    zip.File(IndexMember, content);
    zip.File(ManifestMember, manifestXml);
    zip.File(CpSchemaMember, SchemaPlaceholder);
    zip.File(MdSchemaMember, SchemaPlaceholder);
    zip.File(AdlcpSchemaMember, SchemaPlaceholder);
  }

  /** The archive both services produce: the page, the manifest and the three schema
      placeholders, under their fixed names. */
  function Archive(content: string, manifestXml: string): map<string, string> {
    map[IndexMember := content, ManifestMember := manifestXml, CpSchemaMember := SchemaPlaceholder,
        MdSchemaMember := SchemaPlaceholder, AdlcpSchemaMember := SchemaPlaceholder]
  }

  /** The archive holds exactly the five distinct members: the page and the manifest as given,
      and the placeholder text in each schema member. */
  lemma ArchiveContents(content: string, manifestXml: string)
    ensures Archive(content, manifestXml).Keys == ArchiveMembers && |ArchiveMembers| == 5
    ensures Archive(content, manifestXml)[IndexMember] == content
    ensures Archive(content, manifestXml)[ManifestMember] == manifestXml
    ensures forall name | name in {CpSchemaMember, MdSchemaMember, AdlcpSchemaMember} :: Archive(content, manifestXml)[name] == SchemaPlaceholder
  {
  }

  /** Filling a new archive gives exactly `Archive(content, manifestXml)`. */
  method BuildArchive(content: string, manifestXml: string) returns (files: map<string, string>)
    ensures files == Archive(content, manifestXml)
  {
    var zip := new Zip();
    FillArchive(zip, content, manifestXml);
    files := zip.files;
  }

  /** What `downloadSCORMPackage` hands to `saveAs`: the file name, as UTF-16 code
      units, and the archive. */
  datatype Download = Download(fileName: seq<CodeUnit>, archive: map<string, string>)
}
