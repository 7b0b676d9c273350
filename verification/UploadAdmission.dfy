/** The admission rule for a new upload: free bytes less the reserved bytes must hold the whole file. */
module UploadAdmission {
  datatype Admission = Admitted(reservation: int) | Rejected

  function AssessAdmission(available: int, fileBytes: int, reserved: int): (r: Admission)
    ensures r.Admitted? <==> reserved + fileBytes <= available
    ensures r.Admitted? ==> r.reservation == fileBytes
  {
    var usable := available - reserved;
    if usable < fileBytes then Rejected else Admitted(fileBytes)
  }
}
