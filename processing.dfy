/**
 * The processing object every stage embeds: two callback slots and the
 * req_end flag. The slots are modelled by naming the function installed.
 */
module Processing {
  import opened Common

  /** The functions the core installs in a data_in or data_out slot. */
  datatype Callback =
    | Unset            // never assigned (zeroed memory)
    | DataInDefault    // processing_data_in_default
    | DataOutDefault   // processing_data_out_default
    | FileWriteCb      // file_write
    | UartReceive      // uart_receive
    | Itm2MemDataIn    // itm2mem_info_data_in
    | Itm2MemDataOut   // itm2mem_info_data_out

  /** processing_obj */
  class ProcessingObj {
    var dataIn: Callback
    var dataOut: Callback
    var reqEnd: bool

    constructor ()
      ensures dataIn == Unset && dataOut == Unset && !reqEnd
    {
      dataIn, dataOut, reqEnd := Unset, Unset, false;
    }

    /** processing_init: installs both defaults; always 0; req_end untouched. */
    method Init() returns (rc: int)
      modifies this`dataIn, this`dataOut
      ensures rc == 0
      ensures dataIn == DataInDefault && dataOut == DataOutDefault
    {
      dataIn := DataInDefault;
      dataOut := DataOutDefault;
      return 0;
    }

    /** processing_fini: the same two assignments, so a second fini is accepted too. */
    method Fini() returns (rc: int)
      modifies this`dataIn, this`dataOut
      ensures rc == 0
      ensures dataIn == DataInDefault && dataOut == DataOutDefault
    {
      dataIn := DataInDefault;
      dataOut := DataOutDefault;
      return 0;
    }
  }
}
