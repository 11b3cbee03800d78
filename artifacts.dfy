/**
 * The four source files of a feature (DTO, model, service, controller) as
 * `fmt.Sprintf` templates with positional `%s` holes.
 *
 * Each template is transcribed line by line, keeping every line that holds a
 * hole or a percent sign, in their order in the source; the lines between
 * them are copied verbatim by `fmt` and are not part of this model. Text is
 * written as it appears in the generated file (`Unparse` doubles its percent
 * signs, giving back the `%%` of the Go literal); long texts are written as
 * concatenations of short pieces, only so that the verifier compares short
 * strings; the pieces join to the text of the source line. Every hole is annotated with the variant
 * of the feature name the identifier around it needs, and each line states
 * the variants its holes need; the argument list each generator passes is
 * transcribed separately as a sequence of tags.
 */
module Artifacts {
  import opened Formatting
  import opened Naming
  import opened Layout
  import opened Templates

  // ---- identifiers shared between the files ----

  /** The DTO's response type. */
  function InfoType(caps: string): string { "Info" + caps }

  /** The service method that looks an entity up by its identifier. */
  function FinderName(caps: string): string { "Find" + caps }

  /** The service's query-builder field. */
  function QueryBuilderField(lower: string): string { lower + "QueryBuilder" }

  /** The service's cache field. */
  function CacheField(caps: string): string { "info" + caps + "Cache" }

  /** The controller's get-by-identifier handler. */
  function HandlerName(caps: string): string { "get" + caps + "Handler" }

  /** The Mongo collection the model declares. */
  function CollectionName(lower: string): string { lower + "s" }

  /** The prefix the controller mounts its routes under. */
  function RoutePrefix(lower: string): string { "/" + lower }

  /** The strings one generator formats with: the module path and its own lower/caps pair. */
  function FileEnv(modulePath: string, n: Names): Env { Env(modulePath, n.lower, n.caps) }

  // ---- generateDto ----

  function DtoLine0(): Line
  {
    [Txt("type Info"), Slot(Caps), Txt(" struct {")]
  }

  function DtoLine1(): Line
  {
    [Txt("func EmptyInfo"), Slot(Caps), Txt("() *Info"), Slot(Caps), Txt(" {")]
  }

  function DtoLine2(): Line
  {
    [Txt("\treturn &Info"), Slot(Caps), Txt("{}")]
  }

  function DtoLine3(): Line
  {
    [Txt("func (d *Info"), Slot(Caps), Txt(") GetValue() *Info"), Slot(Caps), Txt(" {")]
  }

  function DtoLine4(): Line
  {
    [Txt("func (d *Info"), Slot(Caps),
     Txt(") ValidateErrors(" + "errs validator." + "ValidationErrors) " + "([]string, error) {")]
  }

  /** The validation messages: the percent signs are text, not holes. */
  function DtoLine5(): Line
  {
    [Txt("\t\t\tmsgs = append(" + "msgs, fmt.Sprintf(" + "\"%s is required\", " + "err.Field()))")]
  }

  function DtoLine6(): Line
  {
    [Txt("\t\t\tmsgs = append(" + "msgs, fmt.Sprintf(" + "\"%s must be min %s\", " + "err.Field(), " + "err.Param()))")]
  }

  function DtoLine7(): Line
  {
    [Txt("\t\t\tmsgs = append(" + "msgs, fmt.Sprintf(" + "\"%s must be max %s\", " + "err.Field(), " + "err.Param()))")]
  }

  function DtoLine8(): Line
  {
    [Txt("\t\t\tmsgs = append(" + "msgs, fmt.Sprintf(" + "\"%s is invalid\", " + "err.Field()))")]
  }

  // Which variants each line's holes need.

  lemma DtoLine0Needs() ensures LineNeeds(DtoLine0()) == [Caps] { LineNeeds3(DtoLine0()); }
  lemma DtoLine1Needs() ensures LineNeeds(DtoLine1()) == [Caps, Caps] { LineNeeds5(DtoLine1()); }
  lemma DtoLine2Needs() ensures LineNeeds(DtoLine2()) == [Caps] { LineNeeds3(DtoLine2()); }
  lemma DtoLine3Needs() ensures LineNeeds(DtoLine3()) == [Caps, Caps] { LineNeeds5(DtoLine3()); }
  lemma DtoLine4Needs() ensures LineNeeds(DtoLine4()) == [Caps] { LineNeeds3(DtoLine4()); }
  lemma DtoLine5Needs() ensures LineNeeds(DtoLine5()) == [] { LineNeeds1(DtoLine5()); }
  lemma DtoLine6Needs() ensures LineNeeds(DtoLine6()) == [] { LineNeeds1(DtoLine6()); }
  lemma DtoLine7Needs() ensures LineNeeds(DtoLine7()) == [] { LineNeeds1(DtoLine7()); }
  lemma DtoLine8Needs() ensures LineNeeds(DtoLine8()) == [] { LineNeeds1(DtoLine8()); }

  function DtoTemplate(): Template {
    [DtoLine0(), DtoLine1(), DtoLine2(), DtoLine3(), DtoLine4(), DtoLine5(), DtoLine6(), DtoLine7(), DtoLine8()]
  }

  /** `featureCaps` seven times. */
  function DtoArgs(): seq<Tag> {
    [Caps, Caps, Caps, Caps, Caps, Caps, Caps]
  }

  lemma DtoTags()
    ensures var none: seq<Tag> := [];
      [Caps] + ([Caps, Caps] + ([Caps] + ([Caps, Caps] + ([Caps] + (none + (none + (none + none))))))) == DtoArgs()
  {
  }

  /**
   * Seven holes, seven arguments, each the capitalised name its identifier
   * needs; the six percent signs of the validation messages take none.
   */
  lemma DtoArity()
    ensures Needs(DtoTemplate()) == DtoArgs()
    ensures Holes(Erase(DtoTemplate())) == |DtoArgs()| == 7
  {
    Needs9(DtoTemplate());
    DtoLine0Needs(); DtoLine1Needs(); DtoLine2Needs(); DtoLine3Needs(); DtoLine4Needs();
    DtoLine5Needs(); DtoLine6Needs(); DtoLine7Needs(); DtoLine8Needs();
    DtoTags();
    HolesOfTemplate(DtoTemplate());
  }

  /** The DTO lines as rendered, every hole holding the capitalised name. */
  function DtoLines(n: Names): seq<string> { RenderLines(DtoTemplate(), FileEnv("", n)) }

  /** The DTO text `generateDto` writes: `fmt` renders exactly the annotated lines. */
  function DtoText(n: Names): (r: string)
    ensures r == Unlines(DtoLines(n))
  {
    DtoArity();
    Instantiate(DtoTemplate(), DtoArgs(), FileEnv("", n));
    Sprintf(Unparse(Erase(DtoTemplate())), Args(DtoArgs(), FileEnv("", n)))
  }

  lemma DtoPicks(n: Names)
    ensures var ls, e := DtoLines(n), FileEnv("", n);
      && RenderLine(DtoLine0(), e) in ls && RenderLine(DtoLine1(), e) in ls
      && RenderLine(DtoLine2(), e) in ls && RenderLine(DtoLine3(), e) in ls
  {
    var e := FileEnv("", n);
    RenderedAt(DtoTemplate(), 0, e);
    RenderedAt(DtoTemplate(), 1, e);
    RenderedAt(DtoTemplate(), 2, e);
    RenderedAt(DtoTemplate(), 3, e);
  }

  // How the lines holding the DTO's declarations render.

  lemma DtoLine0Renders(e: Env)
    ensures RenderLine(DtoLine0(), e) == "type " + InfoType(e.caps) + " struct {"
  {
    RenderLine3(DtoLine0(), e);
  }

  lemma DtoLine1Renders(e: Env)
    ensures RenderLine(DtoLine1(), e) == "func Empty" + InfoType(e.caps) + "() *" + InfoType(e.caps) + " {"
  {
    RenderLine5(DtoLine1(), e);
  }

  lemma DtoLine2Renders(e: Env)
    ensures RenderLine(DtoLine2(), e) == "\treturn &" + InfoType(e.caps) + "{}"
  {
    RenderLine3(DtoLine2(), e);
  }

  lemma DtoLine3Renders(e: Env)
    ensures RenderLine(DtoLine3(), e) == "func (d *" + InfoType(e.caps) + ") GetValue() *" + InfoType(e.caps) + " {"
  {
    RenderLine5(DtoLine3(), e);
  }

  /** The DTO declares the response type `Info<Caps>`, its constructor and its accessor. */
  lemma DtoDeclares(n: Names)
    ensures var ls := DtoLines(n);
      && "type " + InfoType(n.caps) + " struct {" in ls
      && "func Empty" + InfoType(n.caps) + "() *" + InfoType(n.caps) + " {" in ls
      && "\treturn &" + InfoType(n.caps) + "{}" in ls
      && "func (d *" + InfoType(n.caps) + ") GetValue() *" + InfoType(n.caps) + " {" in ls
  {
    var e := FileEnv("", n);
    DtoPicks(n);
    DtoLine0Renders(e);
    DtoLine1Renders(e);
    DtoLine2Renders(e);
    DtoLine3Renders(e);
  }

  // ---- generateModel ----

  function ModelLine0(): Line {
    [Txt("const " + "CollectionName = \""), Slot(Lower), Txt("s\"")]
  }

  function ModelLine1(): Line {
    [Txt("type "), Slot(Caps), Txt(" struct {")]
  }

  function ModelLine2(): Line {
    [Txt("func New"), Slot(Caps), Txt("(field string) (*"), Slot(Caps), Txt(", error) {")]
  }

  function ModelLine3(): Line {
    [Txt("\tdoc := "), Slot(Caps), Txt("{")]
  }

  function ModelLine4(): Line {
    [Txt("func (doc *"), Slot(Caps), Txt(") GetValue() *"), Slot(Caps), Txt(" {")]
  }

  function ModelLine5(): Line {
    [Txt("func (doc *"), Slot(Caps), Txt(") Validate() error {")]
  }

  function ModelLine6(): Line {
    [Txt("func (*"), Slot(Caps), Txt(") EnsureIndexes(" + "db mongo.Database) {")]
  }

  function ModelLine7(): Line {
    [Txt("\tmongo." + "NewQueryBuilder["), Slot(Caps),
     Txt("](db, " + "CollectionName)." + "Query(context." + "Background())." + "CreateIndexes(" + "indexes)")]
  }

  lemma ModelLine0Needs() ensures LineNeeds(ModelLine0()) == [Lower] { LineNeeds3(ModelLine0()); }
  lemma ModelLine1Needs() ensures LineNeeds(ModelLine1()) == [Caps] { LineNeeds3(ModelLine1()); }
  lemma ModelLine2Needs() ensures LineNeeds(ModelLine2()) == [Caps, Caps] { LineNeeds5(ModelLine2()); }
  lemma ModelLine3Needs() ensures LineNeeds(ModelLine3()) == [Caps] { LineNeeds3(ModelLine3()); }
  lemma ModelLine4Needs() ensures LineNeeds(ModelLine4()) == [Caps, Caps] { LineNeeds5(ModelLine4()); }
  lemma ModelLine5Needs() ensures LineNeeds(ModelLine5()) == [Caps] { LineNeeds3(ModelLine5()); }
  lemma ModelLine6Needs() ensures LineNeeds(ModelLine6()) == [Caps] { LineNeeds3(ModelLine6()); }
  lemma ModelLine7Needs() ensures LineNeeds(ModelLine7()) == [Caps] { LineNeeds3(ModelLine7()); }

  function ModelTemplate(): Template {
    [ModelLine0(), ModelLine1(), ModelLine2(), ModelLine3(), ModelLine4(), ModelLine5(), ModelLine6(), ModelLine7()]
  }

  /** `featureLower` and then `featureCaps` nine times. */
  function ModelArgs(): seq<Tag> {
    [Lower, Caps, Caps, Caps, Caps, Caps, Caps, Caps, Caps, Caps]
  }

  lemma ModelTags()
    ensures [Lower] + ([Caps] + ([Caps, Caps] + ([Caps] + ([Caps, Caps] + ([Caps] + ([Caps] + [Caps])))))) == ModelArgs()
  {
  }

  /** Ten holes, ten arguments: the collection gets the lower-case name, every type use the capitalised one. */
  lemma ModelArity()
    ensures Needs(ModelTemplate()) == ModelArgs()
    ensures Holes(Erase(ModelTemplate())) == |ModelArgs()| == 10
  {
    Needs8(ModelTemplate());
    ModelLine0Needs(); ModelLine1Needs(); ModelLine2Needs(); ModelLine3Needs();
    ModelLine4Needs(); ModelLine5Needs(); ModelLine6Needs(); ModelLine7Needs();
    ModelTags();
    HolesOfTemplate(ModelTemplate());
  }

  /** The model lines as rendered. */
  function ModelLines(n: Names): seq<string> { RenderLines(ModelTemplate(), FileEnv("", n)) }

  /** The model text `generateModel` writes: `fmt` renders exactly the annotated lines. */
  function ModelText(n: Names): (r: string)
    ensures r == Unlines(ModelLines(n))
  {
    ModelArity();
    Instantiate(ModelTemplate(), ModelArgs(), FileEnv("", n));
    Sprintf(Unparse(Erase(ModelTemplate())), Args(ModelArgs(), FileEnv("", n)))
  }

  lemma ModelPicks(n: Names)
    ensures var ls, e := ModelLines(n), FileEnv("", n);
      && RenderLine(ModelLine0(), e) in ls && RenderLine(ModelLine1(), e) in ls
      && RenderLine(ModelLine2(), e) in ls
  {
    var e := FileEnv("", n);
    RenderedAt(ModelTemplate(), 0, e);
    RenderedAt(ModelTemplate(), 1, e);
    RenderedAt(ModelTemplate(), 2, e);
  }

  lemma ModelLine0Renders(e: Env)
    ensures RenderLine(ModelLine0(), e) == "const CollectionName = \"" + CollectionName(e.lower) + "\""
  {
    RenderLine3(ModelLine0(), e);
  }

  lemma ModelLine1Renders(e: Env)
    ensures RenderLine(ModelLine1(), e) == "type " + e.caps + " struct {"
  {
    RenderLine3(ModelLine1(), e);
  }

  lemma ModelLine2Renders(e: Env)
    ensures RenderLine(ModelLine2(), e) == "func New" + e.caps + "(field string) (*" + e.caps + ", error) {"
  {
    RenderLine5(ModelLine2(), e);
  }

  /**
   * The model declares the collection `<lower>s`, the persisted type `<Caps>`
   * and its constructor.
   */
  lemma ModelDeclares(n: Names)
    ensures var ls := ModelLines(n);
      && "const CollectionName = \"" + CollectionName(n.lower) + "\"" in ls
      && "type " + n.caps + " struct {" in ls
      && "func New" + n.caps + "(field string) (*" + n.caps + ", error) {" in ls
  {
    var e := FileEnv("", n);
    ModelPicks(n);
    ModelLine0Renders(e);
    ModelLine1Renders(e);
    ModelLine2Renders(e);
  }

  // ---- generateService ----

  function ServiceLine0(): Line {
    [Txt("package "), Slot(Lower)]
  }

  function ServiceLine1(): Line {
    [Txt("  \""), Slot(ModulePath), Txt("/api/"), Slot(Lower), Txt("/dto\"")]
  }

  function ServiceLine2(): Line {
    [Txt("\t\""), Slot(ModulePath), Txt("/api/"), Slot(Lower), Txt("/model\"")]
  }

  function ServiceLine3(): Line {
    [Txt("\tFind"), Slot(Caps), Txt("(id primitive." + "ObjectID) (*model."), Slot(Caps), Txt(", error)")]
  }

  function ServiceLine4(): Line {
    [Txt("\t"), Slot(Lower), Txt("QueryBuilder" + " mongo." + "QueryBuilder[model."), Slot(Caps), Txt("]")]
  }

  function ServiceLine5(): Line {
    [Txt("\tinfo"), Slot(Caps), Txt("Cache" + "    redis." + "Cache[dto." + "Info"), Slot(Caps), Txt("]")]
  }

  function ServiceLine6(): Line {
    [Txt("\t\t"), Slot(Lower), Txt("QueryBuilder" + ": mongo." + "NewQueryBuilder[" + "model."), Slot(Caps),
     Txt("](db, model." + "CollectionName),")]
  }

  function ServiceLine7(): Line {
    [Txt("\t\tinfo"), Slot(Caps), Txt("Cache" + ": redis." + "NewCache[dto." + "Info"), Slot(Caps), Txt("](store),")]
  }

  function ServiceLine8(): Line {
    [Txt("func (s *service) " + "Find"), Slot(Caps), Txt("(id primitive." + "ObjectID) (*model."), Slot(Caps),
     Txt(", error) {")]
  }

  function ServiceLine9(): Line {
    [Txt("\tmsg, err := s."), Slot(Lower), Txt("QueryBuilder" + ".SingleQuery()." + "FindOne(filter, nil)")]
  }

  lemma ServiceLine0Needs() ensures LineNeeds(ServiceLine0()) == [Lower] { LineNeeds2(ServiceLine0()); }
  lemma ServiceLine1Needs() ensures LineNeeds(ServiceLine1()) == [ModulePath, Lower] { LineNeeds5(ServiceLine1()); }
  lemma ServiceLine2Needs() ensures LineNeeds(ServiceLine2()) == [ModulePath, Lower] { LineNeeds5(ServiceLine2()); }
  lemma ServiceLine3Needs() ensures LineNeeds(ServiceLine3()) == [Caps, Caps] { LineNeeds5(ServiceLine3()); }
  lemma ServiceLine4Needs() ensures LineNeeds(ServiceLine4()) == [Lower, Caps] { LineNeeds5(ServiceLine4()); }
  lemma ServiceLine5Needs() ensures LineNeeds(ServiceLine5()) == [Caps, Caps] { LineNeeds5(ServiceLine5()); }
  lemma ServiceLine6Needs() ensures LineNeeds(ServiceLine6()) == [Lower, Caps] { LineNeeds5(ServiceLine6()); }
  lemma ServiceLine7Needs() ensures LineNeeds(ServiceLine7()) == [Caps, Caps] { LineNeeds5(ServiceLine7()); }
  lemma ServiceLine8Needs() ensures LineNeeds(ServiceLine8()) == [Caps, Caps] { LineNeeds5(ServiceLine8()); }
  lemma ServiceLine9Needs() ensures LineNeeds(ServiceLine9()) == [Lower] { LineNeeds3(ServiceLine9()); }

  function ServiceTemplate(): Template {
    [
      ServiceLine0(), ServiceLine1(), ServiceLine2(), ServiceLine3(), ServiceLine4(),
      ServiceLine5(), ServiceLine6(), ServiceLine7(), ServiceLine8(), ServiceLine9()
    ]
  }

  /** The eighteen arguments of the service's `fmt.Sprintf` call, in order. */
  function ServiceArgs(): seq<Tag> {
    [
      Lower, ModulePath, Lower, ModulePath, Lower, Caps, Caps, Lower, Caps,
      Caps, Caps, Lower, Caps, Caps, Caps, Caps, Caps, Lower
    ]
  }

  lemma ServiceTags()
    ensures [Lower] + ([ModulePath, Lower] + ([ModulePath, Lower] + ([Caps, Caps] + ([Lower, Caps] +
      ([Caps, Caps] + ([Lower, Caps] + ([Caps, Caps] + ([Caps, Caps] + [Lower])))))))) == ServiceArgs()
  {
  }

  /** Eighteen holes, eighteen arguments, each the variant its identifier needs. */
  lemma ServiceArity()
    ensures Needs(ServiceTemplate()) == ServiceArgs()
    ensures Holes(Erase(ServiceTemplate())) == |ServiceArgs()| == 18
  {
    Needs10(ServiceTemplate());
    ServiceLine0Needs(); ServiceLine1Needs(); ServiceLine2Needs(); ServiceLine3Needs(); ServiceLine4Needs();
    ServiceLine5Needs(); ServiceLine6Needs(); ServiceLine7Needs(); ServiceLine8Needs(); ServiceLine9Needs();
    ServiceTags();
    HolesOfTemplate(ServiceTemplate());
  }

  /** The service lines as rendered. */
  function ServiceLines(modulePath: string, n: Names): seq<string> {
    RenderLines(ServiceTemplate(), FileEnv(modulePath, n))
  }

  /** The service text `generateService` writes: `fmt` renders exactly the annotated lines. */
  function ServiceText(modulePath: string, n: Names): (r: string)
    ensures r == Unlines(ServiceLines(modulePath, n))
  {
    ServiceArity();
    Instantiate(ServiceTemplate(), ServiceArgs(), FileEnv(modulePath, n));
    Sprintf(Unparse(Erase(ServiceTemplate())), Args(ServiceArgs(), FileEnv(modulePath, n)))
  }

  lemma ServiceLine0Renders(e: Env)
    ensures RenderLine(ServiceLine0(), e) == "package " + e.lower
  {
    RenderLine2(ServiceLine0(), e);
  }

  lemma ServiceLine1Renders(e: Env)
    ensures RenderLine(ServiceLine1(), e) == "  \"" + ImportPath(e.modulePath, e.lower, "dto") + "\""
  {
    RenderLine5(ServiceLine1(), e);
  }

  lemma ServiceLine2Renders(e: Env)
    ensures RenderLine(ServiceLine2(), e) == "\t\"" + ImportPath(e.modulePath, e.lower, "model") + "\""
  {
    RenderLine5(ServiceLine2(), e);
  }

  lemma ServiceLine3Renders(e: Env)
    ensures RenderLine(ServiceLine3(), e) ==
      "\t" + FinderName(e.caps) + "(id primitive." + "ObjectID) (*model." + e.caps + ", error)"
  {
    RenderLine5(ServiceLine3(), e);
  }

  lemma ServiceLine4Renders(e: Env)
    ensures RenderLine(ServiceLine4(), e) ==
      "\t" + QueryBuilderField(e.lower) + " mongo." + "QueryBuilder[model." + e.caps + "]"
  {
    RenderLine5(ServiceLine4(), e);
  }

  lemma ServiceLine5Renders(e: Env)
    ensures RenderLine(ServiceLine5(), e) ==
      "\t" + CacheField(e.caps) + "    redis." + "Cache[dto." + InfoType(e.caps) + "]"
  {
    RenderLine5(ServiceLine5(), e);
  }

  lemma ServiceLine6Renders(e: Env)
    ensures RenderLine(ServiceLine6(), e) ==
      "\t\t" + QueryBuilderField(e.lower) + ": mongo." + "NewQueryBuilder[" + "model." + e.caps +
      "](db, model." + "CollectionName),"
  {
    RenderLine5(ServiceLine6(), e);
  }

  lemma ServiceLine7Renders(e: Env)
    ensures RenderLine(ServiceLine7(), e) ==
      "\t\t" + CacheField(e.caps) + ": redis." + "NewCache[dto." + InfoType(e.caps) + "](store),"
  {
    RenderLine5(ServiceLine7(), e);
  }

  lemma ServiceLine8Renders(e: Env)
    ensures RenderLine(ServiceLine8(), e) ==
      "func (s *service) " + FinderName(e.caps) + "(id primitive." + "ObjectID) (*model." + e.caps + ", error) {"
  {
    RenderLine5(ServiceLine8(), e);
  }

  lemma ServiceLine9Renders(e: Env)
    ensures RenderLine(ServiceLine9(), e) ==
      "\tmsg, err := s." + QueryBuilderField(e.lower) + ".SingleQuery()." + "FindOne(filter, nil)"
  {
    RenderLine3(ServiceLine9(), e);
  }

  /** The service is package `<lower>` and imports the feature's dto and model packages. */
  lemma ServiceImports(modulePath: string, n: Names)
    ensures var ls := ServiceLines(modulePath, n);
      && "package " + n.lower in ls
      && "  \"" + ImportPath(modulePath, n.lower, "dto") + "\"" in ls
      && "\t\"" + ImportPath(modulePath, n.lower, "model") + "\"" in ls
  {
    var e := FileEnv(modulePath, n);
    RenderedAt(ServiceTemplate(), 0, e);
    RenderedAt(ServiceTemplate(), 1, e);
    RenderedAt(ServiceTemplate(), 2, e);
    ServiceLine0Renders(e);
    ServiceLine1Renders(e);
    ServiceLine2Renders(e);
  }

  /**
   * The service declares `Find<Caps>` in its interface and its
   * implementation, returning the model type `<Caps>`, and its query-builder
   * and cache fields over the model type and the DTO type `Info<Caps>`.
   */
  lemma ServiceDeclares(modulePath: string, n: Names)
    ensures var ls := ServiceLines(modulePath, n);
      && "\t" + FinderName(n.caps) + "(id primitive." + "ObjectID) (*model." + n.caps + ", error)" in ls
      && "\t" + QueryBuilderField(n.lower) + " mongo." + "QueryBuilder[model." + n.caps + "]" in ls
      && "\t" + CacheField(n.caps) + "    redis." + "Cache[dto." + InfoType(n.caps) + "]" in ls
      && "func (s *service) " + FinderName(n.caps) + "(id primitive." + "ObjectID) (*model." + n.caps + ", error) {" in ls
  {
    var e := FileEnv(modulePath, n);
    RenderedAt(ServiceTemplate(), 3, e);
    RenderedAt(ServiceTemplate(), 4, e);
    RenderedAt(ServiceTemplate(), 5, e);
    RenderedAt(ServiceTemplate(), 8, e);
    ServiceLine3Renders(e);
    ServiceLine4Renders(e);
    ServiceLine5Renders(e);
    ServiceLine8Renders(e);
  }

  /** The fields the service declares are the ones its constructor sets and its finder queries. */
  lemma ServiceUsesItsFields(modulePath: string, n: Names)
    ensures var ls := ServiceLines(modulePath, n);
      && "\t\t" + QueryBuilderField(n.lower) + ": mongo." + "NewQueryBuilder[" + "model." + n.caps +
        "](db, model." + "CollectionName)," in ls
      && "\t\t" + CacheField(n.caps) + ": redis." + "NewCache[dto." + InfoType(n.caps) + "](store)," in ls
      && "\tmsg, err := s." + QueryBuilderField(n.lower) + ".SingleQuery()." + "FindOne(filter, nil)" in ls
  {
    var e := FileEnv(modulePath, n);
    RenderedAt(ServiceTemplate(), 6, e);
    RenderedAt(ServiceTemplate(), 7, e);
    RenderedAt(ServiceTemplate(), 9, e);
    ServiceLine6Renders(e);
    ServiceLine7Renders(e);
    ServiceLine9Renders(e);
  }

  // ---- generateController ----

  function ControllerLine0(): Line {
    [Txt("package "), Slot(Lower)]
  }

  function ControllerLine1(): Line {
    [Txt("\t\""), Slot(ModulePath), Txt("/api/"), Slot(Lower), Txt("/dto\"")]
  }

  function ControllerLine2(): Line {
    [Txt("\t\""), Slot(ModulePath), Txt("/utils\"")]
  }

  function ControllerLine3(): Line {
    [Txt("\t\tBaseController: " + "network." + "NewBaseController(" + "\"" + "/"), Slot(Lower),
     Txt("\", authMFunc, " + "authorizeMFunc),")]
  }

  function ControllerLine4(): Line {
    [Txt("\tgroup.GET(" + "\"/id/:id\", c." + "get"), Slot(Caps), Txt("Handler)")]
  }

  function ControllerLine5(): Line {
    [Txt("func (c " + "*controller) " + "get"), Slot(Caps), Txt("Handler" + "(ctx *gin." + "Context) {")]
  }

  function ControllerLine6(): Line {
    [Txt("\t"), Slot(Lower), Txt(", err := c.service." + "Find"), Slot(Caps), Txt("(mongoId.ID)")]
  }

  function ControllerLine7(): Line {
    [Txt("\t\tc.Send(ctx)." + "NotFoundError(\""), Slot(Lower), Txt(" not found\", err)")]
  }

  function ControllerLine8(): Line {
    [Txt("\tdata, err := utils." + "MapTo[dto." + "Info"), Slot(Caps), Txt("]("), Slot(Lower), Txt(")")]
  }

  lemma ControllerLine0Needs() ensures LineNeeds(ControllerLine0()) == [Lower] { LineNeeds2(ControllerLine0()); }
  lemma ControllerLine1Needs() ensures LineNeeds(ControllerLine1()) == [ModulePath, Lower] { LineNeeds5(ControllerLine1()); }
  lemma ControllerLine2Needs() ensures LineNeeds(ControllerLine2()) == [ModulePath] { LineNeeds3(ControllerLine2()); }
  lemma ControllerLine3Needs() ensures LineNeeds(ControllerLine3()) == [Lower] { LineNeeds3(ControllerLine3()); }
  lemma ControllerLine4Needs() ensures LineNeeds(ControllerLine4()) == [Caps] { LineNeeds3(ControllerLine4()); }
  lemma ControllerLine5Needs() ensures LineNeeds(ControllerLine5()) == [Caps] { LineNeeds3(ControllerLine5()); }
  lemma ControllerLine6Needs() ensures LineNeeds(ControllerLine6()) == [Lower, Caps] { LineNeeds5(ControllerLine6()); }
  lemma ControllerLine7Needs() ensures LineNeeds(ControllerLine7()) == [Lower] { LineNeeds3(ControllerLine7()); }
  lemma ControllerLine8Needs() ensures LineNeeds(ControllerLine8()) == [Caps, Lower] { LineNeeds5(ControllerLine8()); }

  function ControllerTemplate(): Template {
    [
      ControllerLine0(), ControllerLine1(), ControllerLine2(), ControllerLine3(), ControllerLine4(),
      ControllerLine5(), ControllerLine6(), ControllerLine7(), ControllerLine8()
    ]
  }

  /** The twelve arguments of the controller's `fmt.Sprintf` call, in order. */
  function ControllerArgs(): seq<Tag> {
    [Lower, ModulePath, Lower, ModulePath, Lower, Caps, Caps, Lower, Caps, Lower, Caps, Lower]
  }

  lemma ControllerTags()
    ensures [Lower] + ([ModulePath, Lower] + ([ModulePath] + ([Lower] + ([Caps] + ([Caps] + ([Lower, Caps] +
      ([Lower] + [Caps, Lower]))))))) == ControllerArgs()
  {
  }

  /** Twelve holes, twelve arguments, each the variant its identifier needs. */
  lemma ControllerArity()
    ensures Needs(ControllerTemplate()) == ControllerArgs()
    ensures Holes(Erase(ControllerTemplate())) == |ControllerArgs()| == 12
  {
    Needs9(ControllerTemplate());
    ControllerLine0Needs(); ControllerLine1Needs(); ControllerLine2Needs(); ControllerLine3Needs();
    ControllerLine4Needs(); ControllerLine5Needs(); ControllerLine6Needs(); ControllerLine7Needs();
    ControllerLine8Needs();
    ControllerTags();
    HolesOfTemplate(ControllerTemplate());
  }

  /** The controller lines as rendered. */
  function ControllerLines(modulePath: string, n: Names): seq<string> {
    RenderLines(ControllerTemplate(), FileEnv(modulePath, n))
  }

  /** The controller text `generateController` writes: `fmt` renders exactly the annotated lines. */
  function ControllerText(modulePath: string, n: Names): (r: string)
    ensures r == Unlines(ControllerLines(modulePath, n))
  {
    ControllerArity();
    Instantiate(ControllerTemplate(), ControllerArgs(), FileEnv(modulePath, n));
    Sprintf(Unparse(Erase(ControllerTemplate())), Args(ControllerArgs(), FileEnv(modulePath, n)))
  }

  lemma ControllerLine0Renders(e: Env)
    ensures RenderLine(ControllerLine0(), e) == "package " + e.lower
  {
    RenderLine2(ControllerLine0(), e);
  }

  lemma ControllerLine1Renders(e: Env)
    ensures RenderLine(ControllerLine1(), e) == "\t\"" + ImportPath(e.modulePath, e.lower, "dto") + "\""
  {
    RenderLine5(ControllerLine1(), e);
  }

  lemma ControllerLine2Renders(e: Env)
    ensures RenderLine(ControllerLine2(), e) == "\t\"" + UtilsImport(e.modulePath) + "\""
  {
    RenderLine3(ControllerLine2(), e);
  }

  lemma ControllerLine3Renders(e: Env)
    ensures RenderLine(ControllerLine3(), e) ==
      "\t\tBaseController: " + "network." + "NewBaseController(" + "\"" + RoutePrefix(e.lower) +
      "\", authMFunc, " + "authorizeMFunc),"
  {
    RenderLine3(ControllerLine3(), e);
  }

  lemma ControllerLine4Renders(e: Env)
    ensures RenderLine(ControllerLine4(), e) == "\tgroup.GET(" + "\"/id/:id\", c." + HandlerName(e.caps) + ")"
  {
    RenderLine3(ControllerLine4(), e);
  }

  lemma ControllerLine5Renders(e: Env)
    ensures RenderLine(ControllerLine5(), e) ==
      "func (c " + "*controller) " + HandlerName(e.caps) + "(ctx *gin." + "Context) {"
  {
    RenderLine3(ControllerLine5(), e);
  }

  lemma ControllerLine6Renders(e: Env)
    ensures RenderLine(ControllerLine6(), e) == "\t" + e.lower + ", err := c.service." + FinderName(e.caps) + "(mongoId.ID)"
  {
    RenderLine5(ControllerLine6(), e);
  }

  lemma ControllerLine8Renders(e: Env)
    ensures RenderLine(ControllerLine8(), e) ==
      "\tdata, err := utils." + "MapTo[dto." + InfoType(e.caps) + "](" + e.lower + ")"
  {
    RenderLine5(ControllerLine8(), e);
  }

  /**
   * The controller is package `<lower>`, imports the feature's dto package and
   * the shared utils package, and mounts its routes under `/<lower>`.
   */
  lemma ControllerImports(modulePath: string, n: Names)
    ensures var ls := ControllerLines(modulePath, n);
      && "package " + n.lower in ls
      && "\t\"" + ImportPath(modulePath, n.lower, "dto") + "\"" in ls
      && "\t\"" + UtilsImport(modulePath) + "\"" in ls
      && "\t\tBaseController: " + "network." + "NewBaseController(" + "\"" + RoutePrefix(n.lower) +
        "\", authMFunc, " + "authorizeMFunc)," in ls
  {
    var e := FileEnv(modulePath, n);
    RenderedAt(ControllerTemplate(), 0, e);
    RenderedAt(ControllerTemplate(), 1, e);
    RenderedAt(ControllerTemplate(), 2, e);
    RenderedAt(ControllerTemplate(), 3, e);
    ControllerLine0Renders(e);
    ControllerLine1Renders(e);
    ControllerLine2Renders(e);
    ControllerLine3Renders(e);
  }

  /**
   * The route the controller registers names the handler it declares; the
   * handler calls the service's `Find<Caps>` and maps the entity it got to
   * `Info<Caps>`.
   */
  lemma ControllerHandler(modulePath: string, n: Names)
    ensures var ls := ControllerLines(modulePath, n);
      && "\tgroup.GET(" + "\"/id/:id\", c." + HandlerName(n.caps) + ")" in ls
      && "func (c " + "*controller) " + HandlerName(n.caps) + "(ctx *gin." + "Context) {" in ls
      && "\t" + n.lower + ", err := c.service." + FinderName(n.caps) + "(mongoId.ID)" in ls
      && "\tdata, err := utils." + "MapTo[dto." + InfoType(n.caps) + "](" + n.lower + ")" in ls
  {
    var e := FileEnv(modulePath, n);
    RenderedAt(ControllerTemplate(), 4, e);
    RenderedAt(ControllerTemplate(), 5, e);
    RenderedAt(ControllerTemplate(), 6, e);
    RenderedAt(ControllerTemplate(), 8, e);
    ControllerLine4Renders(e);
    ControllerLine5Renders(e);
    ControllerLine6Renders(e);
    ControllerLine8Renders(e);
  }

  // ---- the four files together ----

  /** What one of the feature's files holds: the generator and the strings it formats with. */
  datatype Source =
    | DtoSource(n: Names)
    | ModelSource(n: Names)
    | ServiceSource(modulePath: string, n: Names)
    | ControllerSource(modulePath: string, n: Names)

  /** The text of a file, as `fmt.Sprintf` produces it. */
  function Text(src: Source): string {
    match src
    case DtoSource(n) => DtoText(n)
    case ModelSource(n) => ModelText(n)
    case ServiceSource(modulePath, n) => ServiceText(modulePath, n)
    case ControllerSource(modulePath, n) => ControllerText(modulePath, n)
  }

  /**
   * Formatted from one lower/caps pair, the files agree on every name one of
   * them declares and another uses: the DTO type `Info<Caps>` (declared by
   * the DTO, used by the service's cache and the controller's mapping), the
   * model type `<Caps>` (declared by the model, returned by the service's
   * finder) and `Find<Caps>` (declared by the service, called by the
   * controller).
   */
  lemma NamesAgree(modulePath: string, n: Names)
    ensures "type " + InfoType(n.caps) + " struct {" in DtoLines(n)
    ensures "\t" + CacheField(n.caps) + "    redis." + "Cache[dto." + InfoType(n.caps) + "]" in ServiceLines(modulePath, n)
    ensures "\tdata, err := utils." + "MapTo[dto." + InfoType(n.caps) + "](" + n.lower + ")" in ControllerLines(modulePath, n)
    ensures "type " + n.caps + " struct {" in ModelLines(n)
    ensures "func (s *service) " + FinderName(n.caps) + "(id primitive." + "ObjectID) (*model." + n.caps + ", error) {"
      in ServiceLines(modulePath, n)
    ensures "\t" + n.lower + ", err := c.service." + FinderName(n.caps) + "(mongoId.ID)" in ControllerLines(modulePath, n)
  {
    DtoDeclares(n);
    ModelDeclares(n);
    ServiceDeclares(modulePath, n);
    ControllerHandler(modulePath, n);
  }
}
