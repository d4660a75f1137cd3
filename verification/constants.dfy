/** Limits, error codes and modes of disastrOS_constants.h, and the numbers by which
    processes, descriptors and pool blocks are named. */
module Constants {
  type Pid = nat
  type Fd = nat
  type Block = nat     // a block of the QueueUser pool

  const MAX_NUM_PROCESSES := 1024
  const MAX_NUM_QUEUES := 256
  const MAX_NUM_MESSAGES_PER_QUEUE := 128
  const MAX_MESSAGE_SIZE := 128

  const DSOS_EWAIT := -5
  const DSOS_ESLEEP := -7
  const DSOS_ERESOURCECREATE := -8
  const DSOS_ERESOURCEOPEN := -9
  const DSOS_ERESOURCENOEXCL := -10
  const DSOS_ERESOURCENOFD := -11
  const DSOS_ERESOURCECLOSE := -12
  const DSOS_ERESOURCEINUSE := -13
  const DSOS_NO_MSG_RECEIVED := -14
  const DSOS_NO_MSG_SENT := -15
  const DSOS_EQUEUEOPEN := -16
  const EAGAIN := -101
  const INVALID_FD := -102
  const BUFFER_TOO_SMALL := -105
  const MSG_TOO_BIG := -106
  const ACTION_NOT_ALLOWED := -107
  const INVALID_VALUE := -110
  const OPERATION_NOT_AVAILABLE := -112
  const LIST_INSERTION_ERROR := -114

  const DSOS_CREATE := 1
  const DSOS_EXCL := 4
}
