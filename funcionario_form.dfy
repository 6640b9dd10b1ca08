/**
 * The quick employee registration dialog: the form schema, the photo and
 * document pickers, and the submit handler that inserts the employee and
 * then uploads the photo and each document under the new employee's id.
 * The database insert and the storage uploads are foreign calls; the insert's
 * answer enters as a parameter, and an upload's own failure is only logged.
 */
module FuncionarioForm {
  import opened Wrappers
  import opened Text
  import opened Lists
  import Patterns

  /** A chosen file: its name, its size in bytes and its MIME type. */
  datatype File = File(name: string, size: nat, mime: string)

  const MaxFoto := 5 * 1024 * 1024
  const MaxDocumento := 10 * 1024 * 1024

  const FotoTooLarge := "Foto deve ter no máximo 5MB"
  const FotoNotImage := "Arquivo deve ser uma imagem"

  // ---------------------------------------------------------------------------
  // The pickers
  // ---------------------------------------------------------------------------

  /** The photo state after a pick, and the error toast shown, if any. */
  datatype FotoPick = FotoPick(foto: Option<File>, error: Option<string>)

  predicate AcceptableFoto(f: File) {
    f.size <= MaxFoto && StartsWith(f.mime, "image/")
  }

  /**
   * `handleFotoChange`: no file leaves the photo as it was; a file over 5 MiB
   * and a non-image are refused, in that order, and the current photo kept.
   */
  function FotoChange(current: Option<File>, chosen: Option<File>): (r: FotoPick)
    ensures chosen.None? ==> r == FotoPick(current, None)
    ensures chosen.Some? && AcceptableFoto(chosen.value) ==> r.foto == chosen
    ensures chosen.Some? && !AcceptableFoto(chosen.value) ==> r.foto == current && r.error.Some?
    ensures chosen.Some? && chosen.value.size > MaxFoto ==> r.error == Some(FotoTooLarge)
    ensures chosen.Some? && chosen.value.size <= MaxFoto && !StartsWith(chosen.value.mime, "image/") ==>
      r.error == Some(FotoNotImage)
    ensures r.error.None? <==> chosen.None? || AcceptableFoto(chosen.value)
  {
    match chosen
    case None => FotoPick(current, None)
    case Some(f) =>
      if f.size > MaxFoto then FotoPick(current, Some(FotoTooLarge))
      else if !StartsWith(f.mime, "image/") then FotoPick(current, Some(FotoNotImage))
      else FotoPick(Some(f), None)
  }

  /** Whatever is picked, the photo held is always an image within the limit. */
  lemma FotoStaysAcceptable(current: Option<File>, chosen: Option<File>)
    requires current.Some? ==> AcceptableFoto(current.value)
    ensures var r := FotoChange(current, chosen).foto;
      r.Some? ==> AcceptableFoto(r.value)
  {
  }

  predicate FitsDocumento(f: File) {
    f.size <= MaxDocumento
  }

  predicate TooLargeDocumento(f: File) {
    !FitsDocumento(f)
  }

  function OversizedMessage(f: File): string {
    f.name + " excede 10MB"
  }

  /** The document list after a pick, and one error toast per refused file, in order. */
  datatype DocumentosPick = DocumentosPick(documentos: seq<File>, errors: seq<string>)

  /** `handleDocumentosChange`: the files within 10 MiB are appended in order; each other one raises its toast. */
  function DocumentosChange(prev: seq<File>, files: seq<File>): (r: DocumentosPick)
    ensures |r.documentos| >= |prev| && r.documentos[..|prev|] == prev
    ensures forall k :: |prev| <= k < |r.documentos| ==> FitsDocumento(r.documentos[k])
    ensures |r.errors| <= |files|
  {
    DocumentosPick(prev + Filter(files, FitsDocumento), MapSeq(Filter(files, TooLargeDocumento), OversizedMessage))
  }

  /**
   * The chosen files within the limit are appended after the old list, in
   * their order, all of them and nothing else; each other chosen file raises
   * exactly one toast `<name> excede 10MB`, in the order chosen.
   */
  lemma DocumentosChangeSpec(prev: seq<File>, files: seq<File>)
    ensures var r := DocumentosChange(prev, files);
      Subseq(r.documentos[|prev|..], files)
      && (forall k :: 0 <= k < |files| && FitsDocumento(files[k]) ==> files[k] in r.documentos[|prev|..])
      && |r.documentos| - |prev| == |Filter(files, FitsDocumento)|
      && |r.documentos| - |prev| + |r.errors| == |files|
      && r.errors == MapSeq(Filter(files, TooLargeDocumento), OversizedMessage)
      && (forall i :: 0 <= i < |r.errors| ==> exists k :: 0 <= k < |files| && TooLargeDocumento(files[k]) && r.errors[i] == files[k].name + " excede 10MB")
  {
    var r := DocumentosChange(prev, files);
    assert r.documentos[|prev|..] == Filter(files, FitsDocumento);
    FilterSubseq(files, FitsDocumento);
    forall k | 0 <= k < |files| && FitsDocumento(files[k])
      ensures files[k] in r.documentos[|prev|..]
    {
      FilterKeeps(files, FitsDocumento, k);
    }
    FilterPartition(files);
    var big := Filter(files, TooLargeDocumento);
    forall i | 0 <= i < |r.errors|
      ensures exists k :: 0 <= k < |files| && TooLargeDocumento(files[k]) && r.errors[i] == files[k].name + " excede 10MB"
    {
      assert big[i] in files;
      var k :| 0 <= k < |files| && files[k] == big[i];
      assert r.errors[i] == OversizedMessage(big[i]);
    }
  }

  /**
   * The three facts above leave no freedom: a list of fitting files that is a
   * subsequence of the chosen ones and as long as the fitting ones is exactly
   * what the picker appends.
   */
  lemma DocumentosChangeDetermined(prev: seq<File>, files: seq<File>, appended: seq<File>)
    requires Subseq(appended, files)
    requires forall k :: 0 <= k < |appended| ==> FitsDocumento(appended[k])
    requires |appended| == |Filter(files, FitsDocumento)|
    ensures DocumentosChange(prev, files).documentos == prev + appended
  {
    SubseqFilterIsFilter(appended, files, FitsDocumento);
  }

  lemma {:induction false} FilterPartition(files: seq<File>)
    ensures |Filter(files, FitsDocumento)| + |Filter(files, TooLargeDocumento)| == |files|
    decreases |files|
  {
    if files != [] {
      FilterPartition(files[1..]);
    }
  }

  /** `removeDocumento`: the list without position `index`; an index outside it changes nothing. */
  function RemoveDocumento(prev: seq<File>, index: int): (r: seq<File>)
    ensures 0 <= index < |prev| ==>
      |r| == |prev| - 1
      && (forall k :: 0 <= k < index ==> r[k] == prev[k])
      && (forall k :: index <= k < |r| ==> r[k] == prev[k + 1])
    ensures !(0 <= index < |prev|) ==> r == prev
  {
    if 0 <= index < |prev| then prev[..index] + prev[index + 1..] else prev
  }

  // ---------------------------------------------------------------------------
  // The form schema
  // ---------------------------------------------------------------------------

  /** The form's values; `email` and `telefone` are optional. */
  datatype FormValues = FormValues(
    nome: string, cpf: string, cargo: string, setor: string,
    email: Option<string>, telefone: Option<string>, dataAdmissao: string)

  /** One field's validation message. */
  datatype FieldError = FieldError(field: string, message: string)

  /**
   * The schema's messages, field by field in the schema's order. Whether a
   * text is an e-mail address is decided by the schema library and enters as
   * `isEmail`.
   */
  function SchemaErrors(v: FormValues, isEmail: string -> bool): (r: seq<FieldError>)
    ensures r == [] <==>
      |v.nome| >= 3 && Patterns.IsCpf(v.cpf) && |v.cargo| >= 2 && |v.setor| >= 2
      && (v.email.None? || v.email.value == "" || isEmail(v.email.value)) && |v.dataAdmissao| >= 1
    ensures forall k :: 0 <= k < |r| ==> r[k].field in {"nome", "cpf", "cargo", "setor", "email", "data_admissao"}
  {
    (if |v.nome| < 3 then [FieldError("nome", "Nome deve ter no mínimo 3 caracteres")] else [])
    + (if !Patterns.IsCpf(v.cpf) then [FieldError("cpf", "CPF inválido (formato: 000.000.000-00)")] else [])
    + (if |v.cargo| < 2 then [FieldError("cargo", "Cargo é obrigatório")] else [])
    + (if |v.setor| < 2 then [FieldError("setor", "Setor é obrigatório")] else [])
    + (if v.email.Some? && v.email.value != "" && !isEmail(v.email.value) then [FieldError("email", "E-mail inválido")] else [])
    + (if |v.dataAdmissao| < 1 then [FieldError("data_admissao", "Data de admissão é obrigatória")] else [])
  }

  /** A valid form's CPF has the digits and separators of 000.000.000-00. */
  lemma ValidCpfShape(v: FormValues, isEmail: string -> bool)
    requires SchemaErrors(v, isEmail) == []
    ensures Patterns.CpfShape(v.cpf)
  {
    Patterns.CpfIff(v.cpf);
  }

  // ---------------------------------------------------------------------------
  // Submitting
  // ---------------------------------------------------------------------------

  /** The row inserted into `funcionarios`. */
  datatype FuncionarioInsert = FuncionarioInsert(
    nome: string, cpf: string, cargo: string, setor: string,
    email: Option<string>, telefone: Option<string>, dataAdmissao: string, ativo: bool)

  /** JavaScript's `value || null` on an optional text. */
  function OrNull(s: Option<string>): (r: Option<string>)
    ensures r.None? <==> s.None? || s.value == ""
    ensures r.Some? ==> r == s
  {
    if s.Some? && s.value != "" then s else None
  }

  /** The insert: every field as entered, an empty e-mail or telefone as null, and active. */
  function InsertRecord(v: FormValues): (r: FuncionarioInsert)
    ensures r.ativo
    ensures r.nome == v.nome && r.cpf == v.cpf && r.cargo == v.cargo && r.setor == v.setor && r.dataAdmissao == v.dataAdmissao
    ensures r.email.None? <==> v.email.None? || v.email.value == ""
    ensures r.telefone.None? <==> v.telefone.None? || v.telefone.value == ""
  {
    FuncionarioInsert(v.nome, v.cpf, v.cargo, v.setor, OrNull(v.email), OrNull(v.telefone), v.dataAdmissao, true)
  }

  /** The photo's storage path, its extension being the text after the name's last dot. */
  function FotoPath(id: string, f: File): string {
    "funcionarios/" + id + "/foto." + AfterLast(f.name, '.')
  }

  /** A name without a dot is used whole as the extension; otherwise the extension is what follows the last dot. */
  lemma FotoPathSpec(id: string, f: File)
    ensures '.' !in f.name ==> FotoPath(id, f) == "funcionarios/" + id + "/foto." + f.name
    ensures '.' in f.name ==>
      exists stem :: f.name == stem + "." + AfterLast(f.name, '.') && '.' !in AfterLast(f.name, '.')
  {
    var e := AfterLast(f.name, '.');
    if '.' !in f.name {
      AfterLastAbsent(f.name, '.');
    } else {
      var stem := f.name[..|f.name| - |e| - 1];
      assert f.name == stem + "." + e;
    }
  }

  lemma {:induction false} AfterLastAbsent(s: string, c: char)
    requires c !in s
    ensures AfterLast(s, c) == s
    decreases |s|
  {
    if s != [] {
      AfterLastAbsent(s[..|s| - 1], c);
    }
  }

  function DocumentoPath(id: string, f: File): string {
    "funcionarios/" + id + "/documentos/" + f.name
  }

  /** An upload request: a storage path and the file sent to it. */
  datatype Upload = Upload(path: string, file: File)

  const SavedMessage := "Funcionário cadastrado com sucesso!"
  const FailedMessage := "Erro ao cadastrar funcionário"

  /** After a submit: on success the uploads attempted, in order; the toast either way. */
  datatype SubmitOutcome = Saved(uploads: seq<Upload>, message: string) | Failed(message: string)

  function FotoUploads(id: string, foto: Option<File>): seq<Upload> {
    if foto.Some? then [Upload(FotoPath(id, foto.value), foto.value)] else []
  }

  function DocumentoUpload(id: string, f: File): Upload {
    Upload(DocumentoPath(id, f), f)
  }

  /** One upload per document, in order. */
  function DocumentoUploads(id: string, documentos: seq<File>): (r: seq<Upload>)
    ensures |r| == |documentos|
    ensures forall k :: 0 <= k < |r| ==> r[k] == DocumentoUpload(id, documentos[k])
  {
    if documentos == [] then []
    else DocumentoUploads(id, documentos[..|documentos| - 1]) + [DocumentoUpload(id, documentos[|documentos| - 1])]
  }

  /** Uploading one more document appends its own upload. */
  lemma DocumentoUploadsStep(id: string, documentos: seq<File>, i: nat)
    requires i < |documentos|
    ensures DocumentoUploads(id, documentos[..i + 1]) == DocumentoUploads(id, documentos[..i]) + [DocumentoUpload(id, documentos[i])]
  {
    assert documentos[..i + 1][..i] == documentos[..i];
  }

  /**
   * `onSubmit`: `inserted` is the insert's answer, the new row's id or an
   * error. On an error nothing is uploaded; otherwise the photo, if any, is
   * uploaded first and then each document in order. A failed upload does not
   * change the outcome.
   */
  method OnSubmit(v: FormValues, foto: Option<File>, documentos: seq<File>, inserted: Result<string, string>)
    returns (record: FuncionarioInsert, r: SubmitOutcome)
    ensures record == InsertRecord(v)
    ensures inserted.Err? ==> r == Failed(FailedMessage)
    ensures inserted.Ok? ==>
      r == Saved(FotoUploads(inserted.value, foto) + DocumentoUploads(inserted.value, documentos), SavedMessage)
  {
    record := InsertRecord(v);
    if inserted.Err? {
      return record, Failed(FailedMessage);
    }
    var id := inserted.value;
    // The photo goes first; the document uploads follow it in order.
    var docs: seq<Upload> := [];
    for i := 0 to |documentos|
      invariant docs == DocumentoUploads(id, documentos[..i])
    {
      DocumentoUploadsStep(id, documentos, i);
      docs := docs + [DocumentoUpload(id, documentos[i])];
    }
    assert documentos[..|documentos|] == documentos;
    r := Saved(FotoUploads(id, foto) + docs, SavedMessage);
  }

  /** Each document is uploaded under the new employee's folder, by its own name, in the order chosen. */
  lemma DocumentoPathsSpec(documentos: seq<File>, id: string)
    ensures |DocumentoUploads(id, documentos)| == |documentos|
    ensures forall k :: 0 <= k < |documentos| ==>
      DocumentoUploads(id, documentos)[k].file == documentos[k]
      && DocumentoUploads(id, documentos)[k].path == "funcionarios/" + id + "/documentos/" + documentos[k].name
  {
  }

  /** The photo, when there is one, is uploaded first, as `foto.` and its extension. */
  lemma FotoUploadFirst(foto: Option<File>, documentos: seq<File>, id: string)
    requires foto.Some?
    ensures var uploads := FotoUploads(id, foto) + DocumentoUploads(id, documentos);
      |uploads| == |documentos| + 1
      && uploads[0].file == foto.value
      && uploads[0].path == "funcionarios/" + id + "/foto." + AfterLast(foto.value.name, '.')
  {
  }
}
